/**
 The key simulator of input/simulator.go: the dispatch on the operating
 system and the table that turns a symbolic key name into the name of a
 keypad key. The keystroke itself is left out; a successful press records
 the key name that would have been tapped.
 */
module Simulator {

  /** The operating systems PressKey distinguishes, by `runtime.GOOS`. */
  datatype System = Linux | Windows | Unsupported(goos: string)

  /** A system as `runtime.GOOS` can name it: "linux" and "windows" are never unsupported. */
  type Os = s: System | s.Unsupported? ==> s.goos != "linux" && s.goos != "windows" witness Linux

  function OsOf(goos: string): (os: Os)
    ensures os == Linux <==> goos == "linux"
    ensures os == Windows <==> goos == "windows"
    ensures os.Unsupported? ==> os.goos == goos
  {
    if goos == "linux" then Linux
    else if goos == "windows" then Windows
    else Unsupported(goos)
  }

  /** The outcome of one PressKey call. */
  datatype PressResult = Pressed(tapped: string) | Failed(message: string)

  /**
   Lower case of one character as Go's unicode.ToLower gives it, for every
   character whose lower case is ASCII: the ASCII capitals, KELVIN SIGN
   (U+212A) and LATIN CAPITAL LETTER I WITH DOT ABOVE (U+0130). Every other
   character is left as it is, which may differ from Go only for
   characters whose lower case is outside ASCII, and those never make a
   string equal to a key of the table.
   */
  function LowerChar(ch: char): (r: char)
    ensures 'A' <= ch <= 'Z' ==> r as int == ch as int + 32
    ensures ch == '\U{212A}' ==> r == 'k'
    ensures ch == '\U{0130}' ==> r == 'i'
    ensures !('A' <= ch <= 'Z') && ch != '\U{212A}' && ch != '\U{0130}' ==> r == ch
    ensures !('A' <= r <= 'Z')
  {
    if 'A' <= ch <= 'Z' then (ch as int + 32) as char
    else if ch == '\U{212A}' then 'k'
    else if ch == '\U{0130}' then 'i'
    else ch
  }

  /** strings.ToLower, one character at a time. */
  function ToLower(s: string): (r: string)
    ensures |r| == |s|
    ensures forall i :: 0 <= i < |s| ==> r[i] == LowerChar(s[i])
  {
    if s == [] then [] else [LowerChar(s[0])] + ToLower(s[1..])
  }

  /** The table of pressKeyWithRobotGo, keyed by lower-case key name. */
  const KeyMap: map<string, string> := map[
    "0" := "kp_0", "1" := "kp_1", "2" := "kp_2", "3" := "kp_3", "4" := "kp_4",
    "5" := "kp_5", "6" := "kp_6", "7" := "kp_7", "8" := "kp_8", "9" := "kp_9",
    "*" := "kp_multiply", "+" := "kp_add", "-" := "kp_subtract", "." := "kp_decimal", "/" := "kp_divide",
    "enter" := "kp_enter", "backspace" := "backspace", "escape" := "escape"
  ]

  /**
   The key name handed to the keystroke call: the table entry for the
   lower-cased key, or else the key exactly as it was given.
   */
  function MapKey(key: string): (mapped: string)
    ensures mapped == key || mapped in KeyMap.Values
  {
    var lower := ToLower(key);
    if lower in KeyMap then KeyMap[lower] else key
  }

  /** PressKey: press on Linux and Windows, refuse on every other system. */
  function PressKey(os: Os, key: string): (r: PressResult)
    ensures r.Failed? <==> os.Unsupported?
    ensures r.Pressed? ==> r.tapped == MapKey(key)
    ensures r.Failed? ==> r.message == "unsupported operating system: " + os.goos
  {
    match os
    case Linux => PressKeyWithRobotGo(key)
    case Windows => PressKeyWithRobotGo(key)
    case Unsupported(goos) => Failed("unsupported operating system: " + goos)
  }

  /** pressKeyWithRobotGo: taps the mapped key and reports no error. */
  function PressKeyWithRobotGo(key: string): (r: PressResult)
    ensures r.Pressed?
  {
    Pressed(MapKey(key))
  }

  lemma LowerCharIdempotent(ch: char)
    ensures LowerChar(LowerChar(ch)) == LowerChar(ch)
  {
  }

  /** Lower-casing twice is lower-casing once. */
  lemma ToLowerIdempotent(s: string)
    ensures ToLower(ToLower(s)) == ToLower(s)
  {
  }

  /** The ten digits go to the keypad digits kp_0 to kp_9. */
  lemma DigitsMapToKeypad(d: char)
    requires '0' <= d <= '9'
    ensures MapKey([d]) == "kp_" + [d]
  {
    assert ToLower([d]) == [d];
    assert [d] in KeyMap;
  }

  /** The arithmetic operators and the decimal point go to their keypad keys. */
  lemma OperatorsMapToKeypad()
    ensures MapKey("*") == "kp_multiply" && MapKey("+") == "kp_add"
    ensures MapKey("-") == "kp_subtract" && MapKey(".") == "kp_decimal"
    ensures MapKey("/") == "kp_divide"
  {
    assert ToLower("*") == "*" && ToLower("+") == "+" && ToLower("-") == "-";
    assert ToLower(".") == "." && ToLower("/") == "/";
  }

  /** A string with no character that lower-casing changes is its own lower-case form. */
  lemma ToLowerFixes(s: string)
    requires forall i :: 0 <= i < |s| ==> LowerChar(s[i]) == s[i]
    ensures ToLower(s) == s
  {
  }

  /** enter becomes the keypad enter; backspace and escape stay themselves. */
  lemma NamedKeysMap()
    ensures MapKey("enter") == "kp_enter"
    ensures MapKey("backspace") == "backspace"
    ensures MapKey("escape") == "escape"
  {
    ToLowerFixes("enter");
    ToLowerFixes("backspace");
    ToLowerFixes("escape");
  }

  /** The same holds whatever the letters' case, for instance "ENTER" and "Escape". */
  lemma NamedKeysIgnoreCase()
    ensures MapKey("ENTER") == "kp_enter"
    ensures MapKey("Escape") == "escape"
  {
    var e := ToLower("ENTER");
    assert e[0] == 'e' && e[1] == 'n' && e[2] == 't' && e[3] == 'e' && e[4] == 'r';
    assert e == "enter";
    var x := ToLower("Escape");
    assert x[0] == 'e';
    ToLowerFixes("scape");
    assert x == "escape";
  }

  /**
   Go's lower-casing is not ASCII-only: with a KELVIN SIGN in place of the
   letter k, "BAC\u212ASPACE" still finds the backspace entry.
   */
  lemma KelvinSignFindsBackspace()
    ensures MapKey("BAC\U{212A}SPACE") == "backspace"
  {
    var b := ToLower("BAC\U{212A}SPACE");
    assert b[0] == 'b' && b[1] == 'a' && b[2] == 'c' && b[3] == 'k' && b[4] == 's';
    assert b[5] == 'p' && b[6] == 'a' && b[7] == 'c' && b[8] == 'e';
    assert b == "backspace";
  }

  /** Lookup ignores case: a key maps like its lower-case form whenever that form is in the table. */
  lemma MapKeyIgnoresCase(key: string)
    requires ToLower(key) in KeyMap
    ensures MapKey(key) == KeyMap[ToLower(key)]
    ensures MapKey(ToLower(key)) == KeyMap[ToLower(key)]
  {
    ToLowerIdempotent(key);
  }

  /** A key outside the table is returned as given, not in its lower-case form. */
  lemma UnknownKeyPassesThrough(key: string)
    requires ToLower(key) !in KeyMap
    ensures MapKey(key) == key
    ensures MapKey(ToLower(key)) == ToLower(key)
  {
    ToLowerIdempotent(key);
  }

  /** For instance "F5" stays "F5", although its lower-case form is "f5". */
  lemma UnknownKeyKeepsItsCase()
    ensures ToLower("F5") == "f5" && MapKey("F5") == "F5"
  {
  }

  /** On Linux and Windows every key press succeeds, whatever the key. */
  lemma SupportedOsAlwaysPresses(os: Os, key: string)
    requires os == Linux || os == Windows
    ensures PressKey(os, key) == Pressed(MapKey(key))
  {
  }

  /** On any other system every key press fails with the same message and taps nothing. */
  lemma UnsupportedOsNeverPresses(goos: string, key: string)
    requires goos != "linux" && goos != "windows"
    ensures PressKey(OsOf(goos), key) == Failed("unsupported operating system: " + goos)
  {
  }
}
