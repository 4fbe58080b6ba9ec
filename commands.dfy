/** The keyword commands of the dream zone assistant: a fixed, ordered list of
    substring rules tried on the lower-cased, stripped input before anything
    else; the first rule that fires decides the reply. */
module Commands {
  import opened Wrappers
  import opened Text

  datatype Command = ReportTime | ReportDate | OpenYouTube | OpenWebsite | OpenInstagram | OpenMaps

  /** The clock, already formatted: `%I:%M %p` for the time, `%B %d, %Y` for the date. */
  datatype Clock = Clock(time: string, date: string)

  /** A rule fires when any of its phrases occurs in the normalised input. */
  datatype Rule = Rule(phrases: seq<string>, command: Command)

  /** The rules in the order `_handle_hardcoded_commands` of dreamzone.py tries them. */
  const Rules: seq<Rule> := [
    Rule(["what time"], ReportTime),
    Rule(["what's the date"], ReportDate),
    Rule(["open youtube"], OpenYouTube),
    Rule(["open google", "open website"], OpenWebsite),
    Rule(["open instagram"], OpenInstagram),
    Rule(["open location", "open map", "where is dream zone", "where is the located", "where is the location"], OpenMaps)
  ]

  /** `user_input.lower().strip()`. */
  function Key(input: string): string
  {
    Strip(Lower(input))
  }

  /** The `if ... in t` chain: the command of the first rule whose phrase
      occurs in the normalised input, or `None`. */
  function Dispatch(input: string): Option<Command>
  {
    var t := Key(input);
    if Contains(t, "what time") then Some(ReportTime)
    else if Contains(t, "what's the date") then Some(ReportDate)
    else if Contains(t, "open youtube") then Some(OpenYouTube)
    else if Contains(t, "open google") || Contains(t, "open website") then Some(OpenWebsite)
    else if Contains(t, "open instagram") then Some(OpenInstagram)
    else if Contains(t, "open location") || Contains(t, "open map") || Contains(t, "where is dream zone")
         || Contains(t, "where is the located") || Contains(t, "where is the location") then Some(OpenMaps)
    else None
  }

  predicate Fires(rule: Rule, t: string)
  {
    exists p :: p in rule.phrases && Contains(t, p)
  }

  /** Rule `i` is the earliest rule of `rules` that fires on `t`. */
  predicate Wins(rules: seq<Rule>, t: string, i: int)
  {
    0 <= i < |rules| && Fires(rules[i], t) && forall j :: 0 <= j < i ==> !Fires(rules[j], t)
  }

  /** First-match search over a rule table. */
  function FirstFiring(rules: seq<Rule>, t: string): (r: Option<nat>)
    ensures r.Some? ==> Wins(rules, t, r.value)
    ensures r.None? ==> forall j :: 0 <= j < |rules| ==> !Fires(rules[j], t)
  {
    if rules == [] then None
    else if Fires(rules[0], t) then Some(0)
    else
      match FirstFiring(rules[1..], t)
      case None => None
      case Some(i) => Some(i + 1)
  }

  /** What it takes for each rule of the table to fire, phrase by phrase. */
  lemma RulesFire(t: string)
    ensures Fires(Rules[0], t) <==> Contains(t, "what time")
    ensures Fires(Rules[1], t) <==> Contains(t, "what's the date")
    ensures Fires(Rules[2], t) <==> Contains(t, "open youtube")
    ensures Fires(Rules[3], t) <==> Contains(t, "open google") || Contains(t, "open website")
    ensures Fires(Rules[4], t) <==> Contains(t, "open instagram")
    ensures Fires(Rules[5], t) <==>
      Contains(t, "open location") || Contains(t, "open map") || Contains(t, "where is dream zone")
      || Contains(t, "where is the located") || Contains(t, "where is the location")
  {
    if Fires(Rules[5], t) {
      var p :| p in Rules[5].phrases && Contains(t, p);
    }
  }

  /** The if-chain is the first-match search over `Rules`. */
  lemma DispatchFollowsRules(input: string)
    ensures Dispatch(input) == (match FirstFiring(Rules, Key(input))
                                case None => None
                                case Some(i) => Some(Rules[i].command))
  {
    var t := Key(input);
    RulesFire(t);
    match FirstFiring(Rules, t)
    case None =>
    case Some(i) =>
      assert Wins(Rules, t, i);
  }

  /** Priority: `Dispatch` answers with command `c` exactly when the rule for
      `c` fires and no earlier rule does. */
  lemma DispatchPriority(input: string, c: Command)
    ensures Dispatch(input) == Some(c) <==> exists i :: Wins(Rules, Key(input), i) && Rules[i].command == c
  {
    DispatchFollowsRules(input);
    var t := Key(input);
    forall i, j | Wins(Rules, t, i) && Wins(Rules, t, j)
      ensures i == j
    {
    }
  }

  /** No phrase of any rule occurs in `t`. */
  predicate NoPhraseOccurs(t: string)
  {
    forall i, p :: 0 <= i < |Rules| && p in Rules[i].phrases ==> !Contains(t, p)
  }

  /** `None` exactly when no phrase of any rule occurs in the normalised input. */
  lemma DispatchNone(input: string)
    ensures Dispatch(input) == None <==> NoPhraseOccurs(Key(input))
  {
    DispatchFollowsRules(input);
    var t := Key(input);
    match FirstFiring(Rules, t)
    case None =>
    case Some(i) =>
      var p :| p in Rules[i].phrases && Contains(t, p);
  }

  /** Matching ignores case. */
  lemma DispatchIgnoresCase(input: string)
    ensures Dispatch(Lower(input)) == Dispatch(input)
  {
    LowerIdempotent(input);
  }

  /** Matching ignores whitespace before and after the input. */
  lemma DispatchIgnoresSurroundingSpace(w1: string, input: string, w2: string)
    requires IsBlank(w1) && IsBlank(w2)
    ensures Dispatch(w1 + input + w2) == Dispatch(input)
  {
    LowerStripCommute(w1 + input + w2);
    LowerStripCommute(input);
    StripSurrounded(w1, input, w2);
  }

  /** Either website phrase opens the website once no earlier rule fires. */
  lemma WebsitePhrases(input: string, p: string)
    requires forall j :: 0 <= j < 3 ==> !Fires(Rules[j], Key(input))
    requires p in Rules[3].phrases && Contains(Key(input), p)
    ensures Dispatch(input) == Some(OpenWebsite)
  {
    assert Wins(Rules, Key(input), 3);
    DispatchPriority(input, OpenWebsite);
  }

  /** Any of the five location phrases opens the map once no earlier rule fires. */
  lemma MapsPhrases(input: string, p: string)
    requires forall j :: 0 <= j < 5 ==> !Fires(Rules[j], Key(input))
    requires p in Rules[5].phrases && Contains(Key(input), p)
    ensures Dispatch(input) == Some(OpenMaps)
  {
    assert Wins(Rules, Key(input), 5);
    DispatchPriority(input, OpenMaps);
  }

  /** The text `_handle_hardcoded_commands` of dreamzone.py returns for a command. */
  function Reply(c: Command, clock: Clock): (r: string)
    ensures r != []
  {
    match c
    case ReportTime => "The current time is " + clock.time + "."
    case ReportDate => "Today is " + clock.date + "."
    case OpenYouTube => "Opening YouTube."
    case OpenWebsite => "Opening website."
    case OpenInstagram => "Opening Instagram."
    case OpenMaps => "Opening Maps."
  }

  const YouTubeUrl := "https://www.youtube.com/@CDCKasaragod/videos"
  const WebsiteUrl := "https://www.dreamzone.co.in/"
  const InstagramUrl := "https://www.instagram.com/dreamzone_kasaragod/?hl=en"
  const MapsUrl := "https://www.google.com/maps/dir//3rd+Floor,+Square+Nine+mall,+New+Busstand+Junction,+NH+66,+Kasaragod,+Kerala+671121/@12.5069479,74.9131774,12z/data=!4m8!4m7!1m0!1m5!1m1!1s0x3ba4825cecc298f5:0x781fa60b9fc5edc0!2m2!1d74.9955793!2d12.5069604?entry=ttu&g_ep=EgoyMDI1MTAwMS4wIKXMDSoASAFQAw%3D%3D"

  /** The page a command opens in the browser (`webbrowser.open`), if any. */
  function Url(c: Command): (r: Option<string>)
    ensures r.None? <==> c == ReportTime || c == ReportDate
  {
    match c
    case ReportTime => None
    case ReportDate => None
    case OpenYouTube => Some(YouTubeUrl)
    case OpenWebsite => Some(WebsiteUrl)
    case OpenInstagram => Some(InstagramUrl)
    case OpenMaps => Some(MapsUrl)
  }

  /** `_handle_hardcoded_commands`: the reply of the winning rule, or `None`. */
  function Hardcoded(input: string, clock: Clock): (r: Option<string>)
    ensures r.Some? <==> Dispatch(input).Some?
    ensures r.Some? ==> r.value != [] && r.value == Reply(Dispatch(input).value, clock)
  {
    match Dispatch(input)
    case None => None
    case Some(c) => Some(Reply(c, clock))
  }
}
