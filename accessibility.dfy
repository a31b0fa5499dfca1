/**
 * The accessibility screen: five switches and a text size kept in a
 * key/value preference store, the screen state that edits them, and the
 * "Applied settings" summary shown after saving.
 *
 * The preference store is an in-memory map from key to a typed value.
 */
module Accessibility {
  import Text

  /** A stored preference: SharedPreferences keeps booleans and ints apart. */
  datatype Value = BoolValue(b: bool) | IntValue(i: int)

  const VOICE_GUIDANCE: string := "voice_guidance"
  const HIGH_CONTRAST: string := "high_contrast"
  const SCREEN_READER: string := "screen_reader"
  const LARGE_TEXT: string := "large_text"
  const VIBRATION_FEEDBACK: string := "vibration_feedback"
  const TEXT_SIZE: string := "text_size"

  const DEFAULT_TEXT_SIZE: int := 16
  /** The smallest text size; the seek bar's progress is added to it. */
  const MIN_TEXT_SIZE: int := 12
  /** The seek bar's largest progress, so sizes run from 12 to 24. */
  const MAX_PROGRESS: int := 12

  /**
   * Every key the screen reads holds a value of the type it is read with
   * (reading a key of the other type throws).
   */
  predicate WellTyped(prefs: map<string, Value>)
  {
    (VOICE_GUIDANCE in prefs ==> prefs[VOICE_GUIDANCE].BoolValue?)
    && (HIGH_CONTRAST in prefs ==> prefs[HIGH_CONTRAST].BoolValue?)
    && (SCREEN_READER in prefs ==> prefs[SCREEN_READER].BoolValue?)
    && (LARGE_TEXT in prefs ==> prefs[LARGE_TEXT].BoolValue?)
    && (VIBRATION_FEEDBACK in prefs ==> prefs[VIBRATION_FEEDBACK].BoolValue?)
    && (TEXT_SIZE in prefs ==> prefs[TEXT_SIZE].IntValue?)
  }

  /** SharedPreferences.getBoolean: the stored value, or the default when the key is missing. */
  function GetBoolean(prefs: map<string, Value>, key: string, default: bool): bool
    requires key in prefs ==> prefs[key].BoolValue?
  {
    if key in prefs then prefs[key].b else default
  }

  /** SharedPreferences.getInt: the stored value, or the default when the key is missing. */
  function GetInt(prefs: map<string, Value>, key: string, default: int): int
    requires key in prefs ==> prefs[key].IntValue?
  {
    if key in prefs then prefs[key].i else default
  }

  /** The six settings the screen edits. */
  datatype Settings = Settings(voiceGuidance: bool, highContrast: bool, screenReader: bool,
                               largeText: bool, vibrationFeedback: bool, textSize: int)

  /** Every switch off, 16sp. */
  const DEFAULTS: Settings := Settings(false, false, false, false, false, DEFAULT_TEXT_SIZE)

  /** The settings a store holds, with the defaults for missing keys. */
  function Decode(prefs: map<string, Value>): (s: Settings)
    requires WellTyped(prefs)
    ensures s.voiceGuidance <==> VOICE_GUIDANCE in prefs && prefs[VOICE_GUIDANCE].b
    ensures s.highContrast <==> HIGH_CONTRAST in prefs && prefs[HIGH_CONTRAST].b
    ensures s.screenReader <==> SCREEN_READER in prefs && prefs[SCREEN_READER].b
    ensures s.largeText <==> LARGE_TEXT in prefs && prefs[LARGE_TEXT].b
    ensures s.vibrationFeedback <==> VIBRATION_FEEDBACK in prefs && prefs[VIBRATION_FEEDBACK].b
    ensures TEXT_SIZE in prefs ==> s.textSize == prefs[TEXT_SIZE].i
    ensures TEXT_SIZE !in prefs ==> s.textSize == DEFAULT_TEXT_SIZE
  {
    Settings(GetBoolean(prefs, VOICE_GUIDANCE, false), GetBoolean(prefs, HIGH_CONTRAST, false),
             GetBoolean(prefs, SCREEN_READER, false), GetBoolean(prefs, LARGE_TEXT, false),
             GetBoolean(prefs, VIBRATION_FEEDBACK, false), GetInt(prefs, TEXT_SIZE, DEFAULT_TEXT_SIZE))
  }

  /**
   * The six puts of saveSettings: the store keeps its other keys, stays
   * well typed, and reads back exactly the settings written.
   */
  function Encode(s: Settings, prefs: map<string, Value>): (r: map<string, Value>)
    ensures WellTyped(r)
    ensures Decode(r) == s
    ensures forall k :: k !in {VOICE_GUIDANCE, HIGH_CONTRAST, SCREEN_READER, LARGE_TEXT, VIBRATION_FEEDBACK, TEXT_SIZE} ==>
      (k in r <==> k in prefs) && (k in prefs ==> r[k] == prefs[k])
  {
    prefs[VOICE_GUIDANCE := BoolValue(s.voiceGuidance)][HIGH_CONTRAST := BoolValue(s.highContrast)]
         [SCREEN_READER := BoolValue(s.screenReader)][LARGE_TEXT := BoolValue(s.largeText)]
         [VIBRATION_FEEDBACK := BoolValue(s.vibrationFeedback)][TEXT_SIZE := IntValue(s.textSize)]
  }

  /** An empty store reads as the defaults. */
  lemma EmptyStoreIsDefaults()
    ensures Decode(map[]) == DEFAULTS
  {
  }

  /** Saving the same settings twice leaves the same store as saving them once. */
  lemma EncodeIdempotent(s: Settings, prefs: map<string, Value>)
    ensures Encode(s, Encode(s, prefs)) == Encode(s, prefs)
  {
  }

  /** SeekBar.setProgress: a progress outside 0..MAX_PROGRESS is pinned to the nearer end. */
  function SeekBarProgress(progress: int): (r: int)
    ensures 0 <= r <= MAX_PROGRESS
    ensures 0 <= progress <= MAX_PROGRESS ==> r == progress
    ensures progress < 0 ==> r == 0
    ensures progress > MAX_PROGRESS ==> r == MAX_PROGRESS
  {
    if progress < 0 then 0 else if progress > MAX_PROGRESS then MAX_PROGRESS else progress
  }

  /**
   * What loadCurrentSettings shows for a store: its switches, and the text
   * size the seek bar can hold once set to stored size - 12.
   */
  function Loaded(prefs: map<string, Value>): (s: Settings)
    requires WellTyped(prefs)
    ensures MIN_TEXT_SIZE <= s.textSize <= MIN_TEXT_SIZE + MAX_PROGRESS
    ensures s.(textSize := Decode(prefs).textSize) == Decode(prefs)
  {
    var stored := Decode(prefs);
    stored.(textSize := MIN_TEXT_SIZE + SeekBarProgress(stored.textSize - MIN_TEXT_SIZE))
  }

  /**
   * Opening the screen and saving straight away keeps the settings the
   * store reads as (the keys it was missing are written out), when the stored size is one the seek bar can show (a missing
   * size reads as 16, which it can).
   */
  lemma LoadThenSaveKeepsSettings(prefs: map<string, Value>)
    requires WellTyped(prefs)
    requires MIN_TEXT_SIZE <= Decode(prefs).textSize <= MIN_TEXT_SIZE + MAX_PROGRESS
    ensures Decode(Encode(Loaded(prefs), prefs)) == Decode(prefs)
  {
  }

  /** Settings saved from the screen are what the screen shows when opened again. */
  lemma SaveThenLoadShowsSame(s: Settings, prefs: map<string, Value>)
    requires MIN_TEXT_SIZE <= s.textSize <= MIN_TEXT_SIZE + MAX_PROGRESS
    ensures Loaded(Encode(s, prefs)) == s
  {
  }

  /** isVoiceGuidanceEnabled: agrees with what the screen loads. */
  function IsVoiceGuidanceEnabled(prefs: map<string, Value>): (r: bool)
    requires WellTyped(prefs)
    ensures r == Decode(prefs).voiceGuidance
    ensures VOICE_GUIDANCE !in prefs ==> !r
  {
    GetBoolean(prefs, VOICE_GUIDANCE, false)
  }

  /** isHighContrastEnabled: agrees with what the screen loads. */
  function IsHighContrastEnabled(prefs: map<string, Value>): (r: bool)
    requires WellTyped(prefs)
    ensures r == Decode(prefs).highContrast
    ensures HIGH_CONTRAST !in prefs ==> !r
  {
    GetBoolean(prefs, HIGH_CONTRAST, false)
  }

  /** isScreenReaderEnabled: agrees with what the screen loads. */
  function IsScreenReaderEnabled(prefs: map<string, Value>): (r: bool)
    requires WellTyped(prefs)
    ensures r == Decode(prefs).screenReader
    ensures SCREEN_READER !in prefs ==> !r
  {
    GetBoolean(prefs, SCREEN_READER, false)
  }

  /** isLargeTextEnabled: agrees with what the screen loads. */
  function IsLargeTextEnabled(prefs: map<string, Value>): (r: bool)
    requires WellTyped(prefs)
    ensures r == Decode(prefs).largeText
    ensures LARGE_TEXT !in prefs ==> !r
  {
    GetBoolean(prefs, LARGE_TEXT, false)
  }

  /** isVibrationFeedbackEnabled: agrees with what the screen loads. */
  function IsVibrationFeedbackEnabled(prefs: map<string, Value>): (r: bool)
    requires WellTyped(prefs)
    ensures r == Decode(prefs).vibrationFeedback
    ensures VIBRATION_FEEDBACK !in prefs ==> !r
  {
    GetBoolean(prefs, VIBRATION_FEEDBACK, false)
  }

  /** getTextSize: agrees with what the screen loads. */
  function GetTextSize(prefs: map<string, Value>): (r: int)
    requires WellTyped(prefs)
    ensures r == Decode(prefs).textSize
    ensures TEXT_SIZE !in prefs ==> r == DEFAULT_TEXT_SIZE
  {
    GetInt(prefs, TEXT_SIZE, DEFAULT_TEXT_SIZE)
  }

  /** The first line of the summary. */
  const HEADER: string := "Applied settings:\n"

  /** One line per switch, in the order the summary lists them. */
  const FLAG_LINES: seq<string> := [
    "\U{2022} Voice guidance\n",
    "\U{2022} High contrast mode\n",
    "\U{2022} Screen reader support\n",
    "\U{2022} Large text mode\n",
    "\U{2022} Vibration feedback\n"
  ]

  const TEXT_SIZE_LABEL: string := "\U{2022} Text size: "
  const UNIT: string := "sp"

  /** The last line of the summary. */
  function TextSizeLine(textSize: int): string
  {
    TEXT_SIZE_LABEL + Text.IntToString(textSize) + UNIT
  }

  /** Appending a concatenation appends its pieces one by one. */
  lemma AppendAssoc(a: string, b: string, c: string)
    ensures a + (b + c) == a + b + c
  {
  }

  /** The switches, in summary order. */
  function Flags(s: Settings): seq<bool>
  {
    [s.voiceGuidance, s.highContrast, s.screenReader, s.largeText, s.vibrationFeedback]
  }

  /** The line of a switch when it is on, else nothing. */
  function LineIf(on: bool, line: string): string
  {
    if on then line else ""
  }

  /** The lines of the switches that are on, in order. */
  function EnabledLines(flags: seq<bool>, lines: seq<string>): string
    requires |flags| == |lines|
  {
    if flags == [] then "" else LineIf(flags[0], lines[0]) + EnabledLines(flags[1..], lines[1..])
  }

  /** The toast text of applyAccessibilitySettings for the stored settings. */
  function SummaryText(s: Settings): (text: string)
    ensures Text.StartsWith(text, HEADER)
  {
    HEADER + EnabledLines(Flags(s), FLAG_LINES) + TextSizeLine(s.textSize)
  }

  /** Lines and a final line that start with four characters no two of them share. */
  ghost predicate DistinctHeads(lines: seq<string>, last: string)
  {
    |last| >= 4
    && (forall i :: 0 <= i < |lines| ==> |lines[i]| >= 4 && lines[i][..4] != last[..4])
    && (forall i, j :: 0 <= i < j < |lines| ==> lines[i][..4] != lines[j][..4])
  }

  /** The enabled lines of `flags[i..]`: the line of switch i, if on, then the rest. */
  lemma EnabledLinesStep(flags: seq<bool>, lines: seq<string>, i: nat)
    requires i < |flags| == |lines|
    ensures EnabledLines(flags[i..], lines[i..])
         == LineIf(flags[i], lines[i]) + EnabledLines(flags[i + 1..], lines[i + 1..])
  {
    assert flags[i..][1..] == flags[i + 1..];
    assert lines[i..][1..] == lines[i + 1..];
  }

  /**
   * A run of enabled lines followed by `last` does not start with a head
   * that none of the lines and not `last` start with.
   */
  lemma {:induction false} EnabledLinesHead(flags: seq<bool>, lines: seq<string>, last: string, head: string)
    requires |flags| == |lines| && DistinctHeads(lines, last)
    requires head != last[..4] && forall j :: 0 <= j < |lines| ==> head != lines[j][..4]
    ensures |EnabledLines(flags, lines) + last| >= 4
    ensures (EnabledLines(flags, lines) + last)[..4] != head
  {
    if flags == [] {
      assert EnabledLines(flags, lines) + last == last;
    } else {
      var rest := EnabledLines(flags[1..], lines[1..]) + last;
      EnabledLinesHead(flags[1..], lines[1..], last, head);
      var p := LineIf(flags[0], lines[0]);
      assert EnabledLines(flags, lines) + last == p + rest;
      assert (p + rest)[..4] == if flags[0] then lines[0][..4] else rest[..4];
    }
  }

  /** The summary starts with the first switch's line exactly when that switch is on. */
  lemma StartsWithFirstLine(flags: seq<bool>, lines: seq<string>, last: string)
    requires |flags| == |lines| > 0 && DistinctHeads(lines, last)
    ensures |EnabledLines(flags, lines) + last| >= 4
    ensures (EnabledLines(flags, lines) + last)[..4] == lines[0][..4] <==> flags[0]
  {
    var rest := EnabledLines(flags[1..], lines[1..]) + last;
    EnabledLinesHead(flags[1..], lines[1..], last, lines[0][..4]);
    var p := LineIf(flags[0], lines[0]);
    assert EnabledLines(flags, lines) + last == p + rest;
    assert (p + rest)[..4] == if flags[0] then lines[0][..4] else rest[..4];
  }

  /**
   * The enabled lines and a final line with a head of its own can be
   * read back: the same text means the same switches and the same final line.
   */
  lemma {:induction false} EnabledLinesInjective(f: seq<bool>, g: seq<bool>, lines: seq<string>, x: string, y: string)
    requires |f| == |g| == |lines|
    requires DistinctHeads(lines, x) && |y| >= 4 && y[..4] == x[..4]
    requires EnabledLines(f, lines) + x == EnabledLines(g, lines) + y
    ensures f == g && x == y
  {
    if f != [] {
      assert DistinctHeads(lines, y);
      StartsWithFirstLine(f, lines, x);
      StartsWithFirstLine(g, lines, y);
      assert f[0] == g[0];
      var p := LineIf(f[0], lines[0]);
      var rf := EnabledLines(f[1..], lines[1..]) + x;
      var rg := EnabledLines(g[1..], lines[1..]) + y;
      assert EnabledLines(f, lines) + x == p + rf;
      assert EnabledLines(g, lines) + y == p + rg;
      assert rf == (p + rf)[|p|..];
      assert rg == (p + rg)[|p|..];
      EnabledLinesInjective(f[1..], g[1..], lines[1..], x, y);
      assert f == [f[0]] + f[1..];
      assert g == [g[0]] + g[1..];
    } else {
      assert EnabledLines(f, lines) + x == x;
      assert EnabledLines(g, lines) + y == y;
    }
  }

  /** The summary's lines start differently from each other and from the text-size line. */
  lemma SummaryLinesHaveDistinctHeads(textSize: int)
    ensures DistinctHeads(FLAG_LINES, TextSizeLine(textSize))
  {
    var heads := ["\U{2022} Vo", "\U{2022} Hi", "\U{2022} Sc", "\U{2022} La", "\U{2022} Vi"];
    assert forall i :: 0 <= i < 5 ==> FLAG_LINES[i][..4] == heads[i];
    assert TextSizeLine(textSize)[..4] == "\U{2022} Te";
  }

  /** Different text sizes give different text-size lines. */
  lemma TextSizeLineInjective(a: int, b: int)
    requires TextSizeLine(a) == TextSizeLine(b)
    ensures a == b
  {
    var x, y := TextSizeLine(a), TextSizeLine(b);
    assert Text.IntToString(a) == x[|TEXT_SIZE_LABEL|..|x| - |UNIT|];
    assert Text.IntToString(b) == y[|TEXT_SIZE_LABEL|..|y| - |UNIT|];
    Text.IntToStringInjective(a, b);
  }

  /** What follows the header of the summary. */
  lemma SummaryAfterHeader(s: Settings)
    ensures SummaryText(s)[|HEADER|..] == EnabledLines(Flags(s), FLAG_LINES) + TextSizeLine(s.textSize)
  {
    AppendAssoc(HEADER, EnabledLines(Flags(s), FLAG_LINES), TextSizeLine(s.textSize));
  }

  /** The switches in summary order are the switches. */
  lemma FlagsDetermineSwitches(s: Settings, t: Settings)
    requires Flags(s) == Flags(t)
    ensures s.(textSize := t.textSize) == t
  {
    assert Flags(s)[0] == Flags(t)[0] && Flags(s)[1] == Flags(t)[1] && Flags(s)[2] == Flags(t)[2];
    assert Flags(s)[3] == Flags(t)[3] && Flags(s)[4] == Flags(t)[4];
  }

  /**
   * The summary reports the settings faithfully: two different stored
   * settings never produce the same text.
   */
  lemma SummaryDeterminesSettings(s: Settings, t: Settings)
    requires SummaryText(s) == SummaryText(t)
    ensures s == t
  {
    var x, y := TextSizeLine(s.textSize), TextSizeLine(t.textSize);
    SummaryAfterHeader(s);
    SummaryAfterHeader(t);
    SummaryLinesHaveDistinctHeads(s.textSize);
    SummaryLinesHaveDistinctHeads(t.textSize);
    EnabledLinesInjective(Flags(s), Flags(t), FLAG_LINES, x, y);
    FlagsDetermineSwitches(s, t);
    TextSizeLineInjective(s.textSize, t.textSize);
  }

  /** A switch of the screen. */
  datatype Switch = VoiceGuidance | HighContrast | ScreenReader | LargeText | VibrationFeedback

  /** The state of AccessibilityActivity: its switches, its seek bar, its preview and its store. */
  class AccessibilityScreen {
    var voiceGuidance: bool
    var highContrast: bool
    var screenReader: bool
    var largeText: bool
    var vibrationFeedback: bool
    /** The seek bar's progress. */
    var progress: int
    /** The size the "Preview Text Size" line is drawn at. */
    var previewSize: int
    var prefs: map<string, Value>

    /** The seek bar stays in range and the store stays readable. */
    ghost predicate Valid()
      reads this
    {
      0 <= progress <= MAX_PROGRESS && WellTyped(prefs)
    }

    /** The settings the screen shows: its switches and 12 + progress. */
    function Shown(): Settings
      reads this
    {
      Settings(voiceGuidance, highContrast, screenReader, largeText, vibrationFeedback, MIN_TEXT_SIZE + progress)
    }

    /** onCreate: open the store, then loadCurrentSettings. */
    constructor (prefs: map<string, Value>)
      requires WellTyped(prefs)
      ensures Valid() && this.prefs == prefs
      ensures Shown() == Loaded(prefs)
      ensures previewSize == Decode(prefs).textSize
    {
      this.prefs := prefs;
      new;
      LoadCurrentSettings();
    }

    /**
     * loadCurrentSettings: the switches from the store, the seek bar at
     * stored size - 12 (pinned to its range), and the preview at the stored
     * size itself, since the explicit preview update comes last.
     */
    method LoadCurrentSettings()
      requires WellTyped(prefs)
      modifies this`voiceGuidance, this`highContrast, this`screenReader, this`largeText,
               this`vibrationFeedback, this`progress, this`previewSize
      ensures Valid()
      ensures Shown() == Loaded(prefs)
      ensures previewSize == Decode(prefs).textSize
    {
      voiceGuidance := GetBoolean(prefs, VOICE_GUIDANCE, false);
      highContrast := GetBoolean(prefs, HIGH_CONTRAST, false);
      screenReader := GetBoolean(prefs, SCREEN_READER, false);
      largeText := GetBoolean(prefs, LARGE_TEXT, false);
      vibrationFeedback := GetBoolean(prefs, VIBRATION_FEEDBACK, false);
      var textSize := GetInt(prefs, TEXT_SIZE, DEFAULT_TEXT_SIZE);
      progress := SeekBarProgress(textSize - MIN_TEXT_SIZE);
      UpdateTextSizePreview(textSize - MIN_TEXT_SIZE);
    }

    /** updateTextSizePreview: the preview is drawn at 12 + progress. */
    method UpdateTextSizePreview(progress: int)
      modifies this`previewSize
      ensures previewSize == MIN_TEXT_SIZE + progress
    {
      previewSize := MIN_TEXT_SIZE + progress;
    }

    /** The user drags the seek bar to `progress`; the preview follows. */
    method OnProgressChanged(progress: int)
      requires 0 <= progress <= MAX_PROGRESS
      modifies this`progress, this`previewSize
      ensures this.progress == progress && previewSize == Shown().textSize
    {
      this.progress := progress;
      UpdateTextSizePreview(progress);
    }

    /** The user sets one switch. */
    method SetSwitch(which: Switch, isChecked: bool)
      modifies this`voiceGuidance, this`highContrast, this`screenReader, this`largeText, this`vibrationFeedback
      ensures Shown() == match which
        case VoiceGuidance => old(Shown()).(voiceGuidance := isChecked)
        case HighContrast => old(Shown()).(highContrast := isChecked)
        case ScreenReader => old(Shown()).(screenReader := isChecked)
        case LargeText => old(Shown()).(largeText := isChecked)
        case VibrationFeedback => old(Shown()).(vibrationFeedback := isChecked)
    {
      match which
      case VoiceGuidance => voiceGuidance := isChecked;
      case HighContrast => highContrast := isChecked;
      case ScreenReader => screenReader := isChecked;
      case LargeText => largeText := isChecked;
      case VibrationFeedback => vibrationFeedback := isChecked;
    }

    /**
     * saveSettings: writes the six keys from what the screen shows, then
     * applyAccessibilitySettings reports what the store now holds.
     */
    method SaveSettings() returns (summary: string)
      requires Valid()
      modifies this`prefs
      ensures Valid()
      ensures prefs == Encode(Shown(), old(prefs))
      ensures Loaded(prefs) == Shown()
      ensures summary == SummaryText(Shown())
    {
      prefs := prefs[VOICE_GUIDANCE := BoolValue(voiceGuidance)];
      prefs := prefs[HIGH_CONTRAST := BoolValue(highContrast)];
      prefs := prefs[SCREEN_READER := BoolValue(screenReader)];
      prefs := prefs[LARGE_TEXT := BoolValue(largeText)];
      prefs := prefs[VIBRATION_FEEDBACK := BoolValue(vibrationFeedback)];
      var textSize := MIN_TEXT_SIZE + progress;
      prefs := prefs[TEXT_SIZE := IntValue(textSize)];
      SaveThenLoadShowsSame(Shown(), old(prefs));
      summary := ApplyAccessibilitySettings();
    }

    /** resetToDefaults: every switch off, the seek bar at 4 and the preview at 16sp; the store is untouched. */
    method ResetToDefaults()
      modifies this`voiceGuidance, this`highContrast, this`screenReader, this`largeText,
               this`vibrationFeedback, this`progress, this`previewSize
      ensures Shown() == DEFAULTS == Decode(map[])
      ensures 0 <= progress <= MAX_PROGRESS && previewSize == DEFAULT_TEXT_SIZE
    {
      voiceGuidance := false;
      highContrast := false;
      screenReader := false;
      largeText := false;
      vibrationFeedback := false;
      progress := 4;
      UpdateTextSizePreview(4);
    }

    /** applyAccessibilitySettings: reads the store back and builds the summary line by line. */
    method ApplyAccessibilitySettings() returns (summary: string)
      requires WellTyped(prefs)
      ensures summary == SummaryText(Decode(prefs))
    {
      var settings := Decode(prefs);
      summary := HEADER;
      summary := AppendIf(summary, settings.voiceGuidance, FLAG_LINES[0]);
      summary := AppendIf(summary, settings.highContrast, FLAG_LINES[1]);
      summary := AppendIf(summary, settings.screenReader, FLAG_LINES[2]);
      summary := AppendIf(summary, settings.largeText, FLAG_LINES[3]);
      summary := AppendIf(summary, settings.vibrationFeedback, FLAG_LINES[4]);
      EnabledLinesOfFive(Flags(settings), FLAG_LINES, HEADER);
      ghost var lines := summary;
      summary := summary + TEXT_SIZE_LABEL;
      summary := summary + Text.IntToString(settings.textSize);
      summary := summary + UNIT;
      AppendAssoc(lines, TEXT_SIZE_LABEL, Text.IntToString(settings.textSize));
      AppendAssoc(lines, TEXT_SIZE_LABEL + Text.IntToString(settings.textSize), UNIT);
    }
  }

  /** One guarded StringBuilder.append: the line is added only when its switch is on. */
  method AppendIf(text: string, on: bool, line: string) returns (r: string)
    ensures r == text + LineIf(on, line)
  {
    r := text;
    if on {
      r := r + line;
    }
  }

  /** The enabled lines of the first i + 1 switches after a prefix: one more append. */
  lemma EnabledLinesAppend(f: seq<bool>, l: seq<string>, i: nat, prefix: string)
    requires i < |f| == |l|
    ensures prefix + EnabledLines(f[..i + 1], l[..i + 1]) == prefix + EnabledLines(f[..i], l[..i]) + LineIf(f[i], l[i])
  {
    EnabledLinesSnoc(f, l, i);
    AppendAssoc(prefix, EnabledLines(f[..i], l[..i]), LineIf(f[i], l[i]));
  }

  /** The enabled lines of five switches after a prefix, written out as the appends that build them. */
  lemma EnabledLinesOfFive(f: seq<bool>, l: seq<string>, prefix: string)
    requires |f| == |l| == 5
    ensures prefix + EnabledLines(f, l) == prefix + LineIf(f[0], l[0]) + LineIf(f[1], l[1])
      + LineIf(f[2], l[2]) + LineIf(f[3], l[3]) + LineIf(f[4], l[4])
  {
    assert f[..0] == [] && l[..0] == [];
    assert prefix + EnabledLines(f[..0], l[..0]) == prefix;
    EnabledLinesAppend(f, l, 0, prefix);
    EnabledLinesAppend(f, l, 1, prefix);
    EnabledLinesAppend(f, l, 2, prefix);
    EnabledLinesAppend(f, l, 3, prefix);
    EnabledLinesAppend(f, l, 4, prefix);
    assert f[..5] == f && l[..5] == l;
  }

  /** Adding one more switch adds its line at the end. */
  lemma {:induction false} EnabledLinesSnoc(flags: seq<bool>, lines: seq<string>, i: nat)
    requires i < |flags| == |lines|
    ensures EnabledLines(flags[..i + 1], lines[..i + 1])
         == EnabledLines(flags[..i], lines[..i]) + LineIf(flags[i], lines[i])
    decreases i
  {
    if i == 0 {
      assert flags[..1][1..] == [] && lines[..1][1..] == [];
      assert EnabledLines(flags[..0], lines[..0]) == "";
    } else {
      EnabledLinesSnoc(flags[1..], lines[1..], i - 1);
      assert flags[..i + 1][1..] == flags[1..][..i] && lines[..i + 1][1..] == lines[1..][..i];
      assert flags[..i][1..] == flags[1..][..i - 1] && lines[..i][1..] == lines[1..][..i - 1];
    }
  }
}
