/**
 * ANSI SGR escapes: `termColor`/`colorize` of terminalColors.py, which
 * pidcat.py repeats, with the same behaviour, as `Termcolor`/`Colorize`.
 */
module TerminalColors {
  import opened Wrappers
  import opened Text

  const ESC: char := '\U{1B}'
  /** The SGR reset sequence `\033[0m`. */
  const RESET: string := "\U{1B}[0m"

  const BLACK: int := 0
  const RED: int := 1
  const GREEN: int := 2
  const YELLOW: int := 3
  const BLUE: int := 4
  const MAGENTA: int := 5
  const CYAN: int := 6
  const WHITE: int := 7

  /** The SGR parameters of a colour pair: `3<fg>` then `10<bg>`, each only when given. */
  function ColorCodes(fg: Option<int>, bg: Option<int>): seq<string> {
    (if fg.Some? then ["3" + IntString(fg.value)] else [])
    + (if bg.Some? then ["10" + IntString(bg.value)] else [])
  }

  /** `termColor(foreground, background)` */
  function TermColor(fg: Option<int>, bg: Option<int>): string {
    var codes := ColorCodes(fg, bg);
    if codes == [] then "" else [ESC, '['] + Join(codes, ";") + "m"
  }

  /** `colorize(message, foreground, background)` */
  function Colorize(message: string, fg: Option<int>, bg: Option<int>): string {
    TermColor(fg, bg) + message + RESET
  }

  /** The four shapes `termColor` produces, one per combination of given colours. */
  lemma TermColorShapes(fg: Option<int>, bg: Option<int>)
    ensures fg.None? && bg.None? ==> TermColor(fg, bg) == ""
    ensures fg.Some? && bg.None? ==>
      TermColor(fg, bg) == [ESC] + "[3" + IntString(fg.value) + "m"
    ensures fg.None? && bg.Some? ==>
      TermColor(fg, bg) == [ESC] + "[10" + IntString(bg.value) + "m"
    ensures fg.Some? && bg.Some? ==>
      TermColor(fg, bg) == [ESC] + "[3" + IntString(fg.value) + ";10" + IntString(bg.value) + "m"
  {
    var codes := ColorCodes(fg, bg);
    if fg.Some? && bg.Some? {
      var x, y := IntString(fg.value), IntString(bg.value);
      assert codes == ["3" + x, "10" + y];
      assert Join(codes, ";") == ("3" + x) + ";" + ("10" + y) by {
        assert codes[1..] == ["10" + y];
      }
      BothCodesText(x, y);
    } else if fg.Some? {
      assert codes == ["3" + IntString(fg.value)];
      OneCodeText("3", IntString(fg.value));
    } else if bg.Some? {
      assert codes == ["10" + IntString(bg.value)];
      OneCodeText("10", IntString(bg.value));
    }
  }

  lemma OneCodeText(p: string, x: string)
    ensures [ESC, '['] + (p + x) + "m" == [ESC] + "[" + p + x + "m"
  {
  }

  lemma BothCodesText(x: string, y: string)
    ensures [ESC, '['] + (("3" + x) + ";" + ("10" + y)) + "m" == [ESC] + "[3" + x + ";10" + y + "m"
  {
  }

  /** The SGR parameter text: digits, `-` and `;` only. */
  predicate IsParamChar(c: char) {
    IsDigit(c) || c == '-' || c == ';'
  }

  lemma {:induction false} JoinParamChars(parts: seq<string>)
    requires forall k, i :: 0 <= k < |parts| && 0 <= i < |parts[k]| ==> IsParamChar(parts[k][i])
    ensures forall i :: 0 <= i < |Join(parts, ";")| ==> IsParamChar(Join(parts, ";")[i])
  {
    if |parts| > 1 {
      JoinParamChars(parts[1..]);
      var rest := Join(parts[1..], ";");
      assert Join(parts, ";") == parts[0] + ";" + rest;
      forall i | 0 <= i < |Join(parts, ";")| ensures IsParamChar(Join(parts, ";")[i]) {
        if i < |parts[0]| {
          assert Join(parts, ";")[i] == parts[0][i];
        } else if i > |parts[0]| {
          assert Join(parts, ";")[i] == rest[i - |parts[0]| - 1];
        }
      }
    }
  }

  /**
   * A non-empty `termColor` result is exactly one escape sequence: ESC, `[`,
   * parameter characters (no `m`, no newline), and a closing `m`.
   */
  lemma TermColorIsOneSequence(fg: Option<int>, bg: Option<int>)
    ensures var t := TermColor(fg, bg);
      t == "" || (|t| >= 3 && t[0] == ESC && t[1] == '[' && t[|t| - 1] == 'm'
                  && forall i :: 2 <= i < |t| - 1 ==> IsParamChar(t[i]))
  {
    var codes := ColorCodes(fg, bg);
    forall k, i | 0 <= k < |codes| && 0 <= i < |codes[k]| ensures IsParamChar(codes[k][i]) {
      var c := codes[k];
      assert c[0] == '3' || c[0] == '1';
      assert i > 0 && c[0] == '1' ==> c[1] == '0';
    }
    JoinParamChars(codes);
    if codes != [] {
      var t := TermColor(fg, bg);
      var j := Join(codes, ";");
      assert t == [ESC, '['] + j + "m";
      forall i | 2 <= i < |t| - 1 ensures IsParamChar(t[i]) {
        assert t[i] == j[i - 2];
      }
    }
  }

  /** `colorize` always ends with the reset sequence, and with no colours adds nothing in front. */
  lemma ColorizeShape(message: string, fg: Option<int>, bg: Option<int>)
    ensures var r := Colorize(message, fg, bg);
      |r| >= 4 && r[|r| - 4..] == RESET
      && r == TermColor(fg, bg) + message + RESET
    ensures fg.None? && bg.None? ==> Colorize(message, fg, bg) == message + "\U{1B}[0m"
  {
  }
}
