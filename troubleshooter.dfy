// The rule-based symptom matcher of troubleshooting_helper.py: a
// character-level tokenizer and a two-phase matcher over three constant
// tables (all-token trigger patterns first, then cue-word counting).

module Troubleshooter {
  import opened Text
  import opened Optional

  // ---------------------------------------------------------------------
  // Characters, on the ASCII range

  /** str.isalnum() on ASCII. */
  predicate IsAlnum(c: char) {
    'a' <= c <= 'z' || 'A' <= c <= 'Z' || '0' <= c <= '9'
  }

  predicate IsLowerAlnum(c: char) {
    'a' <= c <= 'z' || '0' <= c <= '9'
  }

  /** A non-empty word of lower-case letters and digits. */
  predicate LowerAlnumWord(w: String) {
    w != [] && forall i :: 0 <= i < |w| ==> IsLowerAlnum(w[i])
  }

  type CueWord = w: String | LowerAlnumWord(w) witness "a"

  /** str.lower() on one character: ASCII upper case to lower case. */
  function LowerChar(c: char): (r: char)
    ensures !('A' <= r <= 'Z')
    ensures IsAlnum(r) <==> IsAlnum(c)
    ensures 'A' <= c <= 'Z' ==> 'a' <= r <= 'z' && r as int - 'a' as int == c as int - 'A' as int
    ensures !('A' <= c <= 'Z') ==> r == c
  {
    if 'A' <= c <= 'Z' then (c as int + 32) as char else c
  }

  /** The smart-quote replacements: \u2019 and \u2018 become an apostrophe,
      \u201c and \u201d a double quote. */
  function QuoteChar(c: char): char {
    if c == '\U{2019}' || c == '\U{2018}' then '\''
    else if c == '\U{201C}' || c == '\U{201D}' then '"'
    else c
  }

  /** One step of the cleaning loop: alphanumerics and whitespace are kept,
      every other character becomes a space. */
  function ScrubChar(c: char): char {
    if IsAlnum(c) || IsSpace(c) then c else ' '
  }

  function Lower(s: String): String {
    seq(|s|, i requires 0 <= i < |s| => LowerChar(s[i]))
  }

  function AsciiQuotes(s: String): String {
    seq(|s|, i requires 0 <= i < |s| => QuoteChar(s[i]))
  }

  /** What _normalize does to one character: lower, map quotes, blank
      punctuation. */
  function CleanChar(c: char): char {
    ScrubChar(QuoteChar(LowerChar(c)))
  }

  /** The text _normalize splits. */
  function Clean(text: String): (r: String)
    ensures |r| == |text|
  {
    if text == [] then [] else [CleanChar(text[0])] + Clean(text[1..])
  }

  /** The token list _normalize returns. */
  function Tokens(text: String): seq<String> {
    Words(Clean(text))
  }

  /** The non-empty words of ws, in order. */
  function NonEmpty(ws: seq<String>): (r: seq<String>)
    ensures |r| <= |ws|
  {
    if ws == [] then []
    else if ws[0] == [] then NonEmpty(ws[1..])
    else [ws[0]] + NonEmpty(ws[1..])
  }

  /** _normalize: the cleaning loop appends one character per input
      character; the final comprehension keeps the non-empty tokens. */
  method Normalize(text: String) returns (tokens: seq<String>)
    ensures tokens == Tokens(text)
  {
    var t := AsciiQuotes(Lower(text));
    var cleaned: String := [];
    for i := 0 to |t|
      invariant |cleaned| == i
      invariant forall j :: 0 <= j < i ==> cleaned[j] == ScrubChar(t[j])
    {
      if IsAlnum(t[i]) || IsSpace(t[i]) {
        cleaned := cleaned + [t[i]];
      } else {
        cleaned := cleaned + " ";
      }
    }
    CleanAt(text);
    assert cleaned == Clean(text);
    tokens := NonEmpty(Words(cleaned));
    WordsAreWords(cleaned);
    NonEmptyKeepsWords(Words(cleaned));
  }

  // ---------------------------------------------------------------------
  // The tables, in dict insertion order

  /** ISSUES is an ordered dict from issue to troubleshooting steps. It is
      modelled as its keys in insertion order and a lookup of the steps, so
      that reasoning about the keys does not carry the step texts. */
  const IssueKeys: seq<String> := [
    "no internet",
    "no power",
    "no display",
    "slow",
    "printer",
    "bluetooth",
    "overheating",
    "battery not charging",
    "no sound",
    "microphone not working",
    "webcam not working",
    "usb device not recognized",
    "vpn not connecting",
    "email not syncing",
    "keyboard not working",
    "touchpad not working",
    "external drive not detected",
    "app won\U{2019}t open",
    "browser pages won\U{2019}t load",
    "os update failed"
  ]

  /** ISSUES[issue]: the troubleshooting steps of one issue; [] for a key
      that is not in the table. */
  function Steps(issue: String): seq<String> {
    match issue
    case "no internet" => [
        "Make sure Airplane Mode and any VPN are OFF, and Wi-Fi is ON.",
        "If multiple devices are affected: power-cycle router/modem (unplug 30\U{2013}60s, replug, wait 2\U{2013}3 min).",
        "If only this device: restart it, forget Wi-Fi and reconnect with the correct password.",
        "If still down: check your ISP outage page using mobile data."
      ]
    case "no power" => [
        "Try a different outlet/power strip; reseat the power cable firmly.",
        "Desktop: ensure PSU rocker switch is ON (|). Laptop: plug in a known-good charger.",
        "Hold power button 15\U{2013}20 seconds, release, then press again.",
        "If still dead: likely PSU/charger/battery\U{2014}seek service."
      ]
    case "no display" => [
        "Confirm the computer is ON (fans/lights) and the monitor has power (LED).",
        "Check the video cable (HDMI/DP) both ends; pick the correct input on the monitor.",
        "Desktop with GPU: cable must go into the GPU port (not motherboard).",
        "Try another cable or monitor/TV."
      ]
    case "slow" => [
        "Close unused apps/tabs; save work and restart.",
        "Ensure >10% free disk space; remove large/temp files.",
        "Use Task Manager/Activity Monitor to end runaway processes.",
        "Disable heavy startup apps; apply OS updates."
      ]
    case "printer" => [
        "Check power, paper, ink/toner; clear paper jams.",
        "Cancel all pending jobs; restart printer and computer.",
        "Ensure printer is on the SAME network; re-add or reinstall driver if needed."
      ]
    case "bluetooth" => [
        "Toggle Bluetooth OFF/ON; ensure accessory is charged and within 2 meters.",
        "Forget the device and re-pair.",
        "Turn off Bluetooth on other nearby devices that may auto-connect."
      ]
    case "overheating" => [
        "Move device to a hard, ventilated surface; keep vents clear.",
        "Close high-CPU apps; save work and restart.",
        "Clean dust from vents/fans if safe; avoid soft surfaces.",
        "If still hot: likely thermal paste/fan issue\U{2014}seek service."
      ]
    case "battery not charging" => [
        "Use a known-good charger/outlet; firmly reseat cable.",
        "Power off for 2 minutes, then charge while off.",
        "Check for bent/dirty charging port; gently clean if needed.",
        "If still not charging: battery/charger/port fault\U{2014}seek service."
      ]
    case "no sound" => [
        "Check volume/mute and output device (speakers/headphones).",
        "Unplug/replug headphones; try different port or device.",
        "Restart the app and then the computer.",
        "If still silent: update/reinstall audio driver."
      ]
    case "microphone not working" => [
        "Unmute mic; raise input volume; choose the correct input device.",
        "Allow mic permissions in OS/app settings.",
        "Unplug/replug mic or headset; try another port.",
        "If still broken: update audio driver or try a different mic."
      ]
    case "webcam not working" => [
        "Close other apps that might be using the camera.",
        "Allow camera permissions in OS/app settings.",
        "Unplug/replug external webcam or try a different USB port.",
        "If still no video: update camera driver or try another camera."
      ]
    case "usb device not recognized" => [
        "Unplug and replug; try a DIFFERENT USB port.",
        "Restart the computer; then plug the device in again.",
        "Try a different cable or hub (or remove the hub).",
        "If still not recognized: driver/device fault likely."
      ]
    case "vpn not connecting" => [
        "Verify internet works WITHOUT VPN first.",
        "Toggle VPN OFF/ON; try a different server/location.",
        "Restart device; check date/time and credentials.",
        "If still failing: firewall/network or account issue\U{2014}contact admin/ISP."
      ]
    case "email not syncing" => [
        "Check internet; refresh mailbox; verify credentials.",
        "Confirm mailbox isn\U{2019}t full; clear out very large attachments.",
        "Restart the mail app; remove and re-add the account.",
        "If still stuck: server or account issue\U{2014}check provider status."
      ]
    case "keyboard not working" => [
        "Check NumLock and keyboard power/battery (if wireless).",
        "Reconnect Bluetooth/USB dongle or cable; try another port.",
        "Restart the computer.",
        "If specific keys fail: try another keyboard."
      ]
    case "touchpad not working" => [
        "Make sure touchpad isn\U{2019}t disabled (function key/OS setting).",
        "Toggle touchpad setting OFF/ON; disconnect external mouse.",
        "Restart the computer.",
        "If still dead: driver/hardware issue\U{2014}seek support."
      ]
    case "external drive not detected" => [
        "Try a different USB port/cable; listen for spin-up or lights.",
        "Check Disk Management/Disk Utility for the drive; assign a letter/mount it.",
        "Try another computer.",
        "If still missing: enclosure/drive failure likely."
      ]
    case "app won\U{2019}t open" => [
        "Force-quit the app and reopen; or restart the device.",
        "Update the app; clear cache/temp files if available.",
        "Reinstall the app.",
        "If still crashing: check OS updates or app compatibility."
      ]
    case "browser pages won\U{2019}t load" => [
        "Check internet; try another website.",
        "Clear cache; disable extensions; try an incognito/private window.",
        "Restart the browser and then the device.",
        "If still broken: DNS/firewall/VPN issue likely."
      ]
    case "os update failed" => [
        "Free up disk space (>10%); plug into power.",
        "Restart and retry the update.",
        "Disable VPN/security apps temporarily and try again.",
        "If still failing: run built-in update troubleshooter/recovery."
      ]
    case _ => []
  }

  /** TRIGGERS: per issue, the patterns whose tokens must all be present. */
  const Triggers: seq<(String, seq<seq<String>>)> := [
    ("no internet", [
      ["no", "internet"], ["wifi", "down"], ["wifi", "not", "working"], ["no", "connection"],
      ["cant", "connect"], ["can't", "connect"], ["cannot", "connect"], ["lost", "internet"],
      ["no", "wifi"], ["internet", "down"], ["network", "down"]
    ]),
    ("no power", [
      ["no", "power"], ["wont", "turn", "on"], ["won't", "turn", "on"], ["doesnt", "turn", "on"],
      ["doesn't", "turn", "on"], ["cant", "turn", "on"], ["can't", "turn", "on"],
      ["wont", "power", "on"], ["won't", "power", "on"], ["no", "lights"], ["computer", "dead"],
      ["pc", "dead"], ["laptop", "dead"], ["won't", "start"], ["wont", "start"]
    ]),
    ("no display", [
      ["no", "display"], ["black", "screen"], ["no", "signal"], ["monitor", "not", "working"],
      ["screen", "blank"], ["screen", "black"]
    ]),
    ("slow", [
      ["slow"], ["lag"], ["freez"], ["unresponsive"], ["stutter"], ["sluggish"]
    ]),
    ("printer", [
      ["printer"], ["cant", "print"], ["can't", "print"], ["wont", "print"], ["won't", "print"],
      ["printer", "offline"]
    ]),
    ("bluetooth", [
      ["bluetooth"], ["cant", "pair"], ["can't", "pair"], ["wont", "pair"], ["won't", "pair"],
      ["not", "pairing"]
    ]),
    ("overheating", [
      ["overheat"], ["hot"], ["fan", "loud"], ["thermal"]
    ]),
    ("battery not charging", [
      ["battery", "not", "charging"], ["not", "charging"], ["won't", "charge"], ["wont", "charge"],
      ["charger", "not", "working"]
    ]),
    ("no sound", [
      ["no", "sound"], ["no", "audio"], ["sound", "not", "working"],
      ["speakers", "not", "working"], ["muted"]
    ]),
    ("microphone not working", [
      ["microphone"], ["mic", "not", "working"], ["mic", "muted"], ["no", "mic"]
    ]),
    ("webcam not working", [
      ["webcam"], ["camera", "not", "working"], ["no", "camera"], ["camera", "blocked"]
    ]),
    ("usb device not recognized", [
      ["usb", "not", "recognized"], ["usb", "device", "not", "recognized"], ["usb", "problem"]
    ]),
    ("vpn not connecting", [
      ["vpn"], ["vpn", "not", "connecting"], ["vpn", "won't", "connect"],
      ["vpn", "wont", "connect"]
    ]),
    ("email not syncing", [
      ["email", "not", "syncing"], ["mail", "not", "syncing"], ["inbox", "not", "updating"]
    ]),
    ("keyboard not working", [
      ["keyboard", "not", "working"], ["no", "keyboard"], ["keys", "not", "working"]
    ]),
    ("touchpad not working", [
      ["touchpad", "not", "working"], ["trackpad", "not", "working"], ["no", "touchpad"]
    ]),
    ("external drive not detected", [
      ["external", "drive", "not", "detected"], ["hard", "drive", "not", "detected"],
      ["ssd", "not", "detected"]
    ]),
    ("app won\U{2019}t open", [
      ["app", "wont", "open"], ["app", "won't", "open"], ["app", "crash"],
      ["app", "not", "opening"]
    ]),
    ("browser pages won\U{2019}t load", [
      ["browser", "not", "loading"], ["pages", "wont", "load"], ["pages", "won't", "load"],
      ["website", "not", "loading"]
    ]),
    ("os update failed", [
      ["update", "failed"], ["os", "update", "failed"], ["update", "error"], ["cant", "update"],
      ["can't", "update"]
    ])
  ]

  // CUES, one row per issue; every cue word is a lower-case alphanumeric
  // word, which the type CueWord records.
  const NoInternetCues: seq<CueWord> := ["internet", "wifi", "network", "connect", "connection"]
  const NoPowerCues: seq<CueWord> := ["power", "dead", "turn", "start"]
  const NoDisplayCues: seq<CueWord> := ["display", "screen", "signal", "monitor"]
  const SlowCues: seq<CueWord> := ["slow", "lag", "freeze", "stutter", "sluggish", "unresponsive"]
  const PrinterCues: seq<CueWord> := ["printer", "print", "offline"]
  const BluetoothCues: seq<CueWord> := ["bluetooth", "pair", "pairing"]
  const OverheatingCues: seq<CueWord> := ["overheat", "hot", "thermal", "fan"]
  const BatteryNotChargingCues: seq<CueWord> := ["battery", "charge", "charging", "charger"]
  const NoSoundCues: seq<CueWord> := ["sound", "audio", "speaker", "volume", "muted"]
  const MicrophoneNotWorkingCues: seq<CueWord> := ["mic", "microphone", "input", "record"]
  const WebcamNotWorkingCues: seq<CueWord> := ["webcam", "camera", "video"]
  const UsbDeviceNotRecognizedCues: seq<CueWord> := ["usb", "recognized", "device"]
  const VpnNotConnectingCues: seq<CueWord> := ["vpn", "connect", "connecting", "tunnel"]
  const EmailNotSyncingCues: seq<CueWord> := ["email", "mail", "inbox", "sync"]
  const KeyboardNotWorkingCues: seq<CueWord> := ["keyboard", "keys", "typing"]
  const TouchpadNotWorkingCues: seq<CueWord> := ["touchpad", "trackpad", "cursor"]
  const ExternalDriveNotDetectedCues: seq<CueWord> := ["external", "drive", "disk", "hdd", "ssd", "detected"]
  const AppWontOpenCues: seq<CueWord> := ["app", "open", "opening", "crash"]
  const BrowserPagesWontLoadCues: seq<CueWord> := ["browser", "page", "website", "load", "loading"]
  const OsUpdateFailedCues: seq<CueWord> := ["update", "upgrade", "patch", "failed", "error"]

  /** CUES: per issue, the cue words counted by the fuzzy phase, in dict order. */
  const Cues: seq<(String, seq<CueWord>)> := [
    ("no internet", NoInternetCues),
    ("no power", NoPowerCues),
    ("no display", NoDisplayCues),
    ("slow", SlowCues),
    ("printer", PrinterCues),
    ("bluetooth", BluetoothCues),
    ("overheating", OverheatingCues),
    ("battery not charging", BatteryNotChargingCues),
    ("no sound", NoSoundCues),
    ("microphone not working", MicrophoneNotWorkingCues),
    ("webcam not working", WebcamNotWorkingCues),
    ("usb device not recognized", UsbDeviceNotRecognizedCues),
    ("vpn not connecting", VpnNotConnectingCues),
    ("email not syncing", EmailNotSyncingCues),
    ("keyboard not working", KeyboardNotWorkingCues),
    ("touchpad not working", TouchpadNotWorkingCues),
    ("external drive not detected", ExternalDriveNotDetectedCues),
    ("app won\U{2019}t open", AppWontOpenCues),
    ("browser pages won\U{2019}t load", BrowserPagesWontLoadCues),
    ("os update failed", OsUpdateFailedCues)
  ]

  // ---------------------------------------------------------------------
  // Matching

  function TokenSet(tokens: seq<String>): set<String> {
    set t | t in tokens
  }

  /** AND-match: every pattern token is among the input tokens. */
  predicate PatternMatches(pattern: seq<String>, ts: set<String>) {
    forall t :: t in Tokens(Join(" ", pattern)) ==> t in ts
  }

  predicate IssueTriggered(patterns: seq<seq<String>>, ts: set<String>) {
    exists q :: 0 <= q < |patterns| && PatternMatches(patterns[q], ts)
  }

  /** Phase 1: the first issue in table order with a matching pattern. */
  function FirstTrigger<K>(triggers: seq<(K, seq<seq<String>>)>, ts: set<String>): Option<K> {
    if triggers == [] then None
    else if IssueTriggered(triggers[0].1, ts) then Some(triggers[0].0)
    else FirstTrigger(triggers[1..], ts)
  }

  /** The cue score of one issue: how many of its cue words are among the
      input tokens. */
  function CueScore(words: seq<String>, ts: set<String>): (n: nat)
    ensures n <= |words|
  {
    if words == [] then 0
    else CueScore(words[..|words| - 1], ts) + (if words[|words| - 1] in ts then 1 else 0)
  }

  /** The scores of all issues, in table order. */
  function Scores<K>(cues: seq<(K, seq<CueWord>)>, ts: set<String>): (s: seq<nat>)
    ensures |s| == |cues|
    ensures forall i :: 0 <= i < |cues| ==> s[i] == CueScore(cues[i].1, ts)
  {
    if cues == [] then [] else [CueScore(cues[0].1, ts)] + Scores(cues[1..], ts)
  }

  /** Phase 2 loop: keep an issue only when its score beats the best so far. */
  function CueFold<K>(cues: seq<(K, seq<CueWord>)>, ts: set<String>,
                      best: Option<K>, bestScore: nat): (Option<K>, nat)
  {
    if cues == [] then (best, bestScore)
    else
      var score := CueScore(cues[0].1, ts);
      if score > bestScore then CueFold(cues[1..], ts, Some(cues[0].0), score)
      else CueFold(cues[1..], ts, best, bestScore)
  }

  /** The two phases of pick_issue over given TRIGGERS and CUES tables, as
      a function of the input token set. */
  function PickFrom<K>(triggers: seq<(K, seq<seq<String>>)>, cues: seq<(K, seq<CueWord>)>,
                       ts: set<String>): Option<K> {
    match FirstTrigger(triggers, ts)
    case Some(issue) => Some(issue)
    case None =>
      var (best, bestScore) := CueFold(cues, ts, None, 0);
      if bestScore > 0 then best else None
  }

  /** pick_issue as a function of the input token set. */
  function Pick(ts: set<String>): Option<String> {
    PickFrom(Triggers, Cues, ts)
  }

  /** pick_issue: normalise the input, then run the two phases over the
      module tables. */
  method PickIssue(userText: String) returns (issue: Option<String>)
    ensures issue == Pick(TokenSet(Tokens(userText)))
  {
    var tokens := Normalize(userText);
    var tokenSet := TokenSet(tokens);
    issue := PickPhases(Triggers, Cues, tokenSet);
  }

  /** The loops of pick_issue: phase 1 returns as soon as a pattern
      matches; phase 2 counts cue hits per issue and keeps a strictly
      better score. */
  method PickPhases<K>(triggers: seq<(K, seq<seq<String>>)>, cues: seq<(K, seq<CueWord>)>,
                       tokenSet: set<String>) returns (issue: Option<K>)
    ensures issue == PickFrom(triggers, cues, tokenSet)
  {
    var bestIssue: Option<K> := None;

    for i := 0 to |triggers|
      invariant FirstTrigger(triggers[i..], tokenSet) == FirstTrigger(triggers, tokenSet)
    {
      var matched := AnyPatternMatches(triggers[i].1, tokenSet);
      if matched {
        return Some(triggers[i].0);
      }
      assert triggers[i..][1..] == triggers[i + 1..];
    }

    var bestScore := 0;
    for i := 0 to |cues|
      invariant CueFold(cues[i..], tokenSet, bestIssue, bestScore) == CueFold(cues, tokenSet, None, 0)
    {
      var score := CountCueHits(cues[i].1, tokenSet);
      assert cues[i..][1..] == cues[i + 1..];
      if score > bestScore {
        bestIssue := Some(cues[i].0);
        bestScore := score;
      }
    }
    issue := if bestScore > 0 then bestIssue else None;
  }

  /** The inner loop of phase 1: whether some pattern of one issue matches. */
  method AnyPatternMatches(patterns: seq<seq<String>>, tokenSet: set<String>) returns (matched: bool)
    ensures matched == IssueTriggered(patterns, tokenSet)
  {
    for k := 0 to |patterns|
      invariant forall q :: 0 <= q < k ==> !PatternMatches(patterns[q], tokenSet)
    {
      var hit := PatternHit(patterns[k], tokenSet);
      if hit {
        return true;
      }
    }
    return false;
  }

  /** One pattern test: normalise the joined pattern and check that its
      tokens are a subset of the input tokens. */
  method PatternHit(pattern: seq<String>, tokenSet: set<String>) returns (hit: bool)
    ensures hit == PatternMatches(pattern, tokenSet)
  {
    var normPattern := Normalize(Join(" ", pattern));
    hit := TokenSet(normPattern) <= tokenSet;
  }

  /** The inner loop of phase 2, which looks up the first token of each
      normalised cue word: every cue word is its own single token, so this
      is the plain count of cue words present among the input tokens. */
  method CountCueHits(words: seq<CueWord>, tokenSet: set<String>) returns (score: nat)
    ensures score == CueScore(words, tokenSet)
  {
    score := 0;
    for k := 0 to |words|
      invariant score == CueScore(words[..k], tokenSet)
    {
      assert words[..k + 1][..k] == words[..k];
      var w := FirstToken(words[k]);
      if w in tokenSet {
        score := score + 1;
      }
    }
    assert words[..|words|] == words;
  }

  /** _normalize(w)[0] for a cue word: it exists and is the word itself. */
  method FirstToken(w: CueWord) returns (t: String)
    ensures t == w
  {
    var tokens := Normalize(w);
    LowerAlnumWordTokens(w);
    t := tokens[0];
  }

  /** The tokens of a pattern of two or more words are those of its first
      word followed by those of the rest. */
  lemma PatternTokensCons(pattern: seq<String>)
    requires |pattern| >= 2
    ensures Tokens(Join(" ", pattern)) == Tokens(pattern[0]) + Tokens(Join(" ", pattern[1..]))
  {
    TokensSpaceJoin(pattern[0], Join(" ", pattern[1..]));
  }

  /** Every element of a + b is in ts exactly when every element of a and
      every element of b is. */
  lemma AllInConcat<T>(a: seq<T>, b: seq<T>, ts: set<T>)
    ensures (forall t :: t in a + b ==> t in ts) <==>
            (forall t :: t in a ==> t in ts) && (forall t :: t in b ==> t in ts)
  {
  }

  /** Every token of every pattern word is among the input tokens. */
  predicate WordsMatch(pattern: seq<String>, ts: set<String>) {
    forall w :: w in pattern ==> TokenSet(Tokens(w)) <= ts
  }

  lemma PatternMatchesCons(pattern: seq<String>, ts: set<String>)
    requires |pattern| >= 2
    ensures PatternMatches(pattern, ts) <==>
            TokenSet(Tokens(pattern[0])) <= ts && PatternMatches(pattern[1..], ts)
  {
    PatternTokensCons(pattern);
    AllInConcat(Tokens(pattern[0]), Tokens(Join(" ", pattern[1..])), ts);
  }

  lemma WordsMatchCons(pattern: seq<String>, ts: set<String>)
    requires pattern != []
    ensures WordsMatch(pattern, ts) <==>
            TokenSet(Tokens(pattern[0])) <= ts && WordsMatch(pattern[1..], ts)
  {
    assert forall w :: w in pattern <==> w == pattern[0] || w in pattern[1..];
  }

  /** Joining the pattern words before normalising changes nothing: a
      pattern matches exactly when every token of every one of its words is
      among the input tokens. */
  lemma {:induction false} PatternMatchesWords(pattern: seq<String>, ts: set<String>)
    ensures PatternMatches(pattern, ts) <==> forall w :: w in pattern ==> TokenSet(Tokens(w)) <= ts
  {
    if pattern == [] {
      WordsEmpty(Clean([]));
    } else if |pattern| == 1 {
      WordsMatchCons(pattern, ts);
    } else {
      PatternMatchesCons(pattern, ts);
      WordsMatchCons(pattern, ts);
      PatternMatchesWords(pattern[1..], ts);
    }
  }

  /** For patterns of plain lower-case alphanumeric words, matching is
      plain membership of every word among the input tokens. */
  lemma PatternMatchesLowerAlnum(pattern: seq<String>, ts: set<String>)
    requires forall w :: w in pattern ==> LowerAlnumWord(w)
    ensures PatternMatches(pattern, ts) <==> forall w :: w in pattern ==> w in ts
  {
    PatternMatchesWords(pattern, ts);
    forall w | w in pattern ensures TokenSet(Tokens(w)) == {w} {
      LowerAlnumWordTokens(w);
    }
  }

  // ---------------------------------------------------------------------
  // The tokenizer

  lemma {:induction false} NonEmptyKeepsWords(ws: seq<String>)
    requires forall k :: 0 <= k < |ws| ==> IsWord(ws[k])
    ensures NonEmpty(ws) == ws
    decreases |ws|
  {
    if ws != [] {
      NonEmptyKeepsWords(ws[1..]);
    }
  }

  /** Clean works character by character. */
  lemma {:induction false} CleanAt(text: String)
    ensures forall i :: 0 <= i < |text| ==> Clean(text)[i] == CleanChar(text[i])
    decreases |text|
  {
    if text != [] {
      CleanAt(text[1..]);
    }
  }

  lemma CleanCharSpaceOrLower(c: char)
    ensures IsSpace(CleanChar(c)) || IsLowerAlnum(CleanChar(c))
  {
  }

  /** Every token is a non-empty run of lower-case letters and digits. */
  lemma {:induction false} TokensLowerAlnum(text: String)
    ensures forall k :: 0 <= k < |Tokens(text)| ==> LowerAlnumWord(Tokens(text)[k])
  {
    var s := Clean(text);
    CleanAt(text);
    forall i | 0 <= i < |s|
      ensures IsSpace(s[i]) || IsLowerAlnum(s[i])
    {
      CleanCharSpaceOrLower(text[i]);
    }
    assert SpaceOr(s, IsLowerAlnum);
    WordsChars(s, IsLowerAlnum);
    WordsAreWords(s);
    var ws := Words(s);
    forall k | 0 <= k < |ws|
      ensures LowerAlnumWord(ws[k])
    {
      assert IsWord(ws[k]) && SpaceOr(ws[k], IsLowerAlnum);
    }
  }

  /** A lower-case alphanumeric word is its own single token. */
  lemma {:induction false} LowerAlnumWordTokens(w: String)
    requires LowerAlnumWord(w)
    ensures Tokens(w) == [w]
  {
    CleanAt(w);
    assert Clean(w) == w;
    WordsSingle(w);
  }

  /** Cleaning works character by character, and a space stays a space. */
  lemma {:induction false} CleanSpaceJoin(a: String, b: String)
    ensures Clean(a + " " + b) == Clean(a) + " " + Clean(b)
  {
    var l, r := Clean(a + " " + b), Clean(a) + " " + Clean(b);
    CleanAt(a + " " + b);
    CleanAt(a);
    CleanAt(b);
    forall i | 0 <= i < |l|
      ensures l[i] == r[i]
    {
      if i < |a| {
        assert (a + " " + b)[i] == a[i];
      } else if i > |a| {
        assert (a + " " + b)[i] == b[i - |a| - 1];
      }
    }
  }

  /** Tokens of two texts joined by a space: the tokens of the first, then
      those of the second. */
  lemma {:induction false} TokensSpaceJoin(a: String, b: String)
    ensures Tokens(a + " " + b) == Tokens(a) + Tokens(b)
  {
    CleanSpaceJoin(a, b);
    WordsSpaceSplit(Clean(a), Clean(b));
  }

  /** An apostrophe, straight or curly, splits a word in two. */
  lemma {:induction false} ApostropheSplits(a: String, b: String)
    requires LowerAlnumWord(a) && LowerAlnumWord(b)
    ensures Tokens(a + "'" + b) == [a, b]
    ensures Tokens(a + "\U{2019}" + b) == [a, b]
  {
    ApostropheTokens(a, '\'', b);
    ApostropheTokens(a, '\U{2019}', b);
  }

  lemma {:induction false} ApostropheTokens(a: String, q: char, b: String)
    requires LowerAlnumWord(a) && LowerAlnumWord(b)
    requires q == '\'' || q == '\U{2019}'
    ensures Tokens(a + [q] + b) == [a, b]
  {
    PunctuationSplits(a, q, b);
    LowerAlnumWordTokens(a);
    LowerAlnumWordTokens(b);
  }

  /** A punctuation character (neither alphanumeric nor whitespace) is
      cleaned to a space, whatever the quote mapping does to it. */
  lemma PunctuationChar(q: char)
    requires !IsAlnum(q) && !IsSpace(q)
    ensures CleanChar(q) == ' '
  {
    assert LowerChar(q) == q;
  }

  /** Replacing a punctuation character by a space does not change the
      cleaned text. */
  lemma {:induction false} PunctuationClean(a: String, q: char, b: String)
    requires !IsAlnum(q) && !IsSpace(q)
    ensures Clean(a + [q] + b) == Clean(a + " " + b)
  {
    var l, r := Clean(a + [q] + b), Clean(a + " " + b);
    CleanAt(a + [q] + b);
    CleanAt(a + " " + b);
    PunctuationChar(q);
    forall i | 0 <= i < |l|
      ensures l[i] == r[i]
    {
      if i < |a| {
        assert (a + [q] + b)[i] == (a + " " + b)[i];
      } else if i > |a| {
        assert (a + [q] + b)[i] == (a + " " + b)[i];
      }
    }
  }

  /** Punctuation splits words: the tokens of a text with a punctuation
      character inside are the tokens before it, then those after it;
      nothing is glued together and nothing is lost. */
  lemma {:induction false} PunctuationSplits(a: String, q: char, b: String)
    requires !IsAlnum(q) && !IsSpace(q)
    ensures Tokens(a + [q] + b) == Tokens(a) + Tokens(b)
  {
    PunctuationClean(a, q, b);
    assert Tokens(a + [q] + b) == Tokens(a + " " + b);
    TokensSpaceJoin(a, b);
  }

  /** Matching ignores case: lower-casing the input first changes no token. */
  lemma {:induction false} TokensIgnoreCase(s: String)
    ensures Tokens(Lower(s)) == Tokens(s)
  {
    var l, r := Clean(Lower(s)), Clean(s);
    CleanAt(Lower(s));
    CleanAt(s);
    forall i | 0 <= i < |l|
      ensures l[i] == r[i]
    {
      assert LowerChar(Lower(s)[i]) == LowerChar(s[i]);
    }
    assert l == r;
  }

  lemma CantSplits()
    ensures Tokens("can't") == ["can", "t"]
    ensures Tokens("can\U{2019}t") == ["can", "t"]
  {
    var a, b := "can", "t";
    CantWords(a, b);
    ApostropheSplits(a, b);
    CantText(a, b);
  }

  lemma CantWords(a: String, b: String)
    requires a == "can" && b == "t"
    ensures LowerAlnumWord(a) && LowerAlnumWord(b)
  {
  }

  lemma CantText(a: String, b: String)
    requires a == "can" && b == "t"
    ensures a + "'" + b == "can't"
    ensures a + "\U{2019}" + b == "can\U{2019}t"
  {
  }

  // ---------------------------------------------------------------------
  // The matcher

  /** Phase 1 returns the first issue with a matching pattern, and None
      exactly when no issue has one. */
  lemma {:induction false} FirstTriggerSpec<K>(triggers: seq<(K, seq<seq<String>>)>, ts: set<String>)
    ensures FirstTrigger(triggers, ts) == None <==>
            forall j :: 0 <= j < |triggers| ==> !IssueTriggered(triggers[j].1, ts)
    ensures FirstTrigger(triggers, ts) != None ==>
            exists i :: 0 <= i < |triggers| && IssueTriggered(triggers[i].1, ts) &&
                        (forall j :: 0 <= j < i ==> !IssueTriggered(triggers[j].1, ts)) &&
                        FirstTrigger(triggers, ts) == Some(triggers[i].0)
    decreases |triggers|
  {
    if triggers != [] && !IssueTriggered(triggers[0].1, ts) {
      var rest := triggers[1..];
      FirstTriggerSpec(rest, ts);
      assert forall j :: 0 < j < |triggers| ==> triggers[j] == rest[j - 1];
      if FirstTrigger(rest, ts) != None {
        var i :| 0 <= i < |rest| && IssueTriggered(rest[i].1, ts) &&
                 (forall j :: 0 <= j < i ==> !IssueTriggered(rest[j].1, ts)) &&
                 FirstTrigger(rest, ts) == Some(rest[i].0);
        assert IssueTriggered(triggers[i + 1].1, ts);
      }
    }
  }

  /** An issue whose pattern matches, with no matching issue before it,
      is the one phase 1 returns. */
  lemma {:induction false} FirstTriggerIsFirst<K>(triggers: seq<(K, seq<seq<String>>)>, ts: set<String>, i: nat)
    requires i < |triggers| && IssueTriggered(triggers[i].1, ts)
    requires forall j :: 0 <= j < i ==> !IssueTriggered(triggers[j].1, ts)
    ensures FirstTrigger(triggers, ts) == Some(triggers[i].0)
    decreases i
  {
    if i > 0 {
      assert !IssueTriggered(triggers[0].1, ts);
      assert forall j :: 0 <= j < i - 1 ==> triggers[1..][j] == triggers[j + 1];
      FirstTriggerIsFirst(triggers[1..], ts, i - 1);
    }
  }

  /** The largest of some scores, 0 for none. */
  function MaxOf(xs: seq<nat>): (m: nat)
    ensures forall j :: 0 <= j < |xs| ==> xs[j] <= m
    ensures xs == [] ==> m == 0
  {
    if xs == [] then 0
    else
      var r := MaxOf(xs[1..]);
      assert forall j :: 1 <= j < |xs| ==> xs[j] == xs[1..][j - 1];
      if xs[0] > r then xs[0] else r
  }

  /** The first position holding m, or |xs| when there is none. */
  function FirstAt(xs: seq<nat>, m: nat): (p: nat)
    ensures p <= |xs|
    ensures p < |xs| ==> xs[p] == m
    ensures forall j :: 0 <= j < p ==> xs[j] != m
  {
    if xs == [] || xs[0] == m then 0
    else
      var p := FirstAt(xs[1..], m);
      assert forall j :: 1 <= j < |xs| ==> xs[j] == xs[1..][j - 1];
      1 + p
  }

  /** A non-empty list holds its maximum. */
  lemma {:induction false} MaxOfAttained(xs: seq<nat>)
    requires xs != []
    ensures FirstAt(xs, MaxOf(xs)) < |xs|
    decreases |xs|
  {
    var m := MaxOf(xs);
    if xs[0] != m {
      var rest := xs[1..];
      assert MaxOf(rest) == m;
      if rest == [] {
        assert false;
      }
      MaxOfAttained(rest);
      assert FirstAt(xs, m) == 1 + FirstAt(rest, m);
    }
  }

  /** The phase-2 loop ends with the best score of the remaining issues and
      the first issue reaching it, unless it does not beat the score held. */
  lemma {:induction false} CueFoldSpec<K>(cues: seq<(K, seq<CueWord>)>, ts: set<String>,
                                          best: Option<K>, bestScore: nat)
    ensures var s := Scores(cues, ts);
            var m := MaxOf(s);
            (m > bestScore ==> FirstAt(s, m) < |cues| &&
                               CueFold(cues, ts, best, bestScore) == (Some(cues[FirstAt(s, m)].0), m)) &&
            (m <= bestScore ==> CueFold(cues, ts, best, bestScore) == (best, bestScore))
  {
    var s := Scores(cues, ts);
    if MaxOf(s) > bestScore {
      CueFoldBeats(cues, ts, best, bestScore);
    } else {
      CueFoldKeeps(cues, ts, best, bestScore);
    }
  }

  /** No remaining score beats the one held: the loop keeps what it has. */
  lemma {:induction false} CueFoldKeeps<K>(cues: seq<(K, seq<CueWord>)>, ts: set<String>,
                                           best: Option<K>, bestScore: nat)
    requires MaxOf(Scores(cues, ts)) <= bestScore
    ensures CueFold(cues, ts, best, bestScore) == (best, bestScore)
    decreases |cues|
  {
    if cues != [] {
      ScoresCons(cues, ts);
      MaxOfCons(Scores(cues, ts));
      CueFoldCons(cues, ts, best, bestScore);
      CueFoldKeeps(cues[1..], ts, best, bestScore);
    }
  }

  /** Some remaining score beats the one held: the loop ends with the
      maximum and the first issue reaching it. */
  lemma {:induction false} CueFoldBeats<K>(cues: seq<(K, seq<CueWord>)>, ts: set<String>,
                                           best: Option<K>, bestScore: nat)
    requires MaxOf(Scores(cues, ts)) > bestScore
    ensures var s := Scores(cues, ts);
            var m := MaxOf(s);
            FirstAt(s, m) < |cues| && CueFold(cues, ts, best, bestScore) == (Some(cues[FirstAt(s, m)].0), m)
    decreases |cues|
  {
    var s, rest := Scores(cues, ts), cues[1..];
    var sr := Scores(rest, ts);
    ScoresCons(cues, ts);
    var s0, mr := s[0], MaxOf(sr);
    MaxOfCons(s);
    var nb := if s0 > bestScore then Some(cues[0].0) else best;
    var ns := if s0 > bestScore then s0 else bestScore;
    CueFoldCons(cues, ts, best, bestScore);
    if mr <= ns {
      CueFoldKeeps(rest, ts, nb, ns);
    } else {
      CueFoldBeats(rest, ts, nb, ns);
      var j := FirstAt(sr, mr);
      FirstAtCons(s, mr);
      assert cues[1 + j] == rest[j];
    }
  }

  lemma ScoresCons<K>(cues: seq<(K, seq<CueWord>)>, ts: set<String>)
    requires cues != []
    ensures Scores(cues, ts)[0] == CueScore(cues[0].1, ts)
    ensures Scores(cues, ts)[1..] == Scores(cues[1..], ts)
  {
  }

  lemma MaxOfCons(xs: seq<nat>)
    requires xs != []
    ensures MaxOf(xs) == if xs[0] > MaxOf(xs[1..]) then xs[0] else MaxOf(xs[1..])
  {
  }

  lemma FirstAtCons(xs: seq<nat>, m: nat)
    requires xs != []
    ensures FirstAt(xs, m) == if xs[0] == m then 0 else 1 + FirstAt(xs[1..], m)
  {
  }

  lemma CueFoldCons<K>(cues: seq<(K, seq<CueWord>)>, ts: set<String>, best: Option<K>, bestScore: nat)
    requires cues != []
    ensures var s0 := CueScore(cues[0].1, ts);
            CueFold(cues, ts, best, bestScore) ==
            if s0 > bestScore then CueFold(cues[1..], ts, Some(cues[0].0), s0)
            else CueFold(cues[1..], ts, best, bestScore)
  {
  }

  /** Phase 1 wins: the first issue with a matching pattern is returned and
      the cue words play no part. */
  lemma PickByTrigger<K>(triggers: seq<(K, seq<seq<String>>)>, cues: seq<(K, seq<CueWord>)>,
                         ts: set<String>, i: nat)
    requires i < |triggers| && IssueTriggered(triggers[i].1, ts)
    requires forall j :: 0 <= j < i ==> !IssueTriggered(triggers[j].1, ts)
    ensures PickFrom(triggers, cues, ts) == Some(triggers[i].0)
  {
    FirstTriggerIsFirst(triggers, ts, i);
  }

  /** Without a matching pattern, the result is the first issue in table
      order whose cue score is the maximum, or None when that is 0. */
  lemma PickByCues<K>(triggers: seq<(K, seq<seq<String>>)>, cues: seq<(K, seq<CueWord>)>,
                      ts: set<String>)
    requires forall j :: 0 <= j < |triggers| ==> !IssueTriggered(triggers[j].1, ts)
    ensures var s := Scores(cues, ts);
            (MaxOf(s) == 0 ==> PickFrom(triggers, cues, ts) == None) &&
            (MaxOf(s) > 0 ==>
               exists i :: 0 <= i < |cues| && PickFrom(triggers, cues, ts) == Some(cues[i].0) &&
                           s[i] == MaxOf(s) && (forall j :: 0 <= j < i ==> s[j] < s[i]))
  {
    FirstTriggerSpec(triggers, ts);
    CueFoldSpec(cues, ts, None, 0);
    var s := Scores(cues, ts);
    if MaxOf(s) > 0 {
      var i := FirstAt(s, MaxOf(s));
      assert PickFrom(triggers, cues, ts) == Some(cues[i].0);
    }
  }

  /** pick_issue returns None exactly when no pattern matches and every cue
      score is 0. */
  lemma PickNone<K>(triggers: seq<(K, seq<seq<String>>)>, cues: seq<(K, seq<CueWord>)>,
                    ts: set<String>)
    ensures PickFrom(triggers, cues, ts) == None <==>
            (forall j :: 0 <= j < |triggers| ==> !IssueTriggered(triggers[j].1, ts)) &&
            (forall j :: 0 <= j < |cues| ==> CueScore(cues[j].1, ts) == 0)
  {
    FirstTriggerSpec(triggers, ts);
    CueFoldSpec(cues, ts, None, 0);
    var s := Scores(cues, ts);
    if MaxOf(s) > 0 {
      MaxOfAttained(s);
    }
  }

  /** When both tables list the same keys, whatever the two phases return
      is one of those keys. */
  lemma PickFromKeys<K>(triggers: seq<(K, seq<seq<String>>)>, cues: seq<(K, seq<CueWord>)>,
                        keys: seq<K>, ts: set<String>)
    requires |triggers| == |keys| && |cues| == |keys|
    requires forall i :: 0 <= i < |keys| ==> triggers[i].0 == keys[i] && cues[i].0 == keys[i]
    ensures PickFrom(triggers, cues, ts) != None ==>
            exists i :: 0 <= i < |keys| && PickFrom(triggers, cues, ts) == Some(keys[i])
  {
    FirstTriggerSpec(triggers, ts);
    CueFoldSpec(cues, ts, None, 0);
    if FirstTrigger(triggers, ts) == None {
      var s := Scores(cues, ts);
      if MaxOf(s) > 0 {
        var i := FirstAt(s, MaxOf(s));
        assert PickFrom(triggers, cues, ts) == Some(keys[i]);
      }
    }
  }

  /** TRIGGERS lists the 20 keys of ISSUES in the same order. */
  lemma TriggerKeysAgree()
    ensures |IssueKeys| == 20 && |Triggers| == 20
    ensures forall i :: 0 <= i < 20 ==> Triggers[i].0 == IssueKeys[i]
  {
  }

  /** CUES lists the 20 keys of ISSUES in the same order. */
  lemma CueKeysAgree()
    ensures |IssueKeys| == 20 && |Cues| == 20
    ensures forall i :: 0 <= i < 20 ==> Cues[i].0 == IssueKeys[i]
  {
  }

  /** Whatever pick_issue returns is a key of ISSUES, so its steps can be
      looked up. */
  lemma PickIsIssue(ts: set<String>)
    ensures Pick(ts) != None ==> exists i :: 0 <= i < |IssueKeys| && Pick(ts) == Some(IssueKeys[i])
  {
    TriggerKeysAgree();
    CueKeysAgree();
    PickFromKeys(Triggers, Cues, IssueKeys, ts);
  }

  /** The two phases depend only on the set of tokens: swapping two parts
      of the input or repeating a part leaves the result unchanged. */
  lemma PickIgnoresOrder<K>(triggers: seq<(K, seq<seq<String>>)>, cues: seq<(K, seq<CueWord>)>,
                            a: String, b: String)
    ensures PickFrom(triggers, cues, TokenSet(Tokens(a + " " + b))) ==
            PickFrom(triggers, cues, TokenSet(Tokens(b + " " + a)))
    ensures PickFrom(triggers, cues, TokenSet(Tokens(a + " " + a))) ==
            PickFrom(triggers, cues, TokenSet(Tokens(a)))
  {
    TokenSetIgnoresOrder(a, b);
  }

  /** Joining two texts with a space gives the union of their token sets. */
  lemma {:induction false} TokenSetIgnoresOrder(a: String, b: String)
    ensures TokenSet(Tokens(a + " " + b)) == TokenSet(Tokens(a)) + TokenSet(Tokens(b))
    ensures TokenSet(Tokens(b + " " + a)) == TokenSet(Tokens(a + " " + b))
    ensures TokenSet(Tokens(a + " " + a)) == TokenSet(Tokens(a))
  {
    TokensSpaceJoin(a, b);
    TokensSpaceJoin(b, a);
    TokensSpaceJoin(a, a);
    TokenSetConcat(Tokens(a), Tokens(b));
    TokenSetConcat(Tokens(b), Tokens(a));
    TokenSetConcat(Tokens(a), Tokens(a));
  }

  lemma TokenSetConcat(x: seq<String>, y: seq<String>)
    ensures TokenSet(x + y) == TokenSet(x) + TokenSet(y)
  {
  }

  /** "no internet" matches the very first trigger pattern. */
  lemma PickNoInternet(userText: String)
    requires userText == "no internet"
    ensures Pick(TokenSet(Tokens(userText))) == Some("no internet")
  {
    var ts := TokenSet(Tokens(userText));
    var pattern := Triggers[0].1[0];
    assert pattern == ["no", "internet"];
    NoInternetTokens(userText);
    NoInternetJoin(pattern);
    assert PatternMatches(pattern, ts);
    FirstTriggerIsFirst(Triggers, ts, 0);
  }

  lemma NoInternetTokens(text: String)
    requires text == "no internet"
    ensures Tokens(text) == ["no", "internet"]
  {
    var a, b := "no", "internet";
    NoInternetWords(a, b);
    TwoWordTokens(a, b);
    NoInternetText(a, b);
  }

  /** Two cue-style words separated by a space are exactly two tokens. */
  lemma {:induction false} TwoWordTokens(a: String, b: String)
    requires LowerAlnumWord(a) && LowerAlnumWord(b)
    ensures Tokens(a + " " + b) == [a, b]
  {
    TokensSpaceJoin(a, b);
    LowerAlnumWordTokens(a);
    LowerAlnumWordTokens(b);
  }

  lemma NoInternetJoin(pattern: seq<String>)
    requires pattern == ["no", "internet"]
    ensures Join(" ", pattern) == "no internet"
  {
    assert pattern[1..] == ["internet"];
  }

  lemma NoInternetWords(a: String, b: String)
    requires a == "no" && b == "internet"
    ensures LowerAlnumWord(a) && LowerAlnumWord(b)
  {
  }

  lemma NoInternetText(a: String, b: String)
    requires a == "no" && b == "internet"
    ensures a + " " + b == "no internet"
  {
  }
}
