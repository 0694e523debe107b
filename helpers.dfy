/** src/ts/helpers.ts: the colour-name table and the debug logger. */
module Helpers {
  import Common
  type Option<T> = Common.Option<T>

  /** The seven names `getColor` knows, with their rgba strings. The table
      is a fresh object literal on every call, so the lookup depends on the
      name alone. */
  const ColorTable: map<string, string> := map[
    "carbon" := "rgba(14, 14, 14, 1)",
    "darkRed" := "rgba(38, 12, 12, 1)",
    "brightRed" := "rgba(114, 6, 6, 1)",
    "darkBlue" := "rgba(12, 16, 38, 1)",
    "brightBlue" := "rgba(9, 12, 104, 1)",
    "darkGreen" := "rgba(12, 38, 12, 1)",
    "brightGreen" := "rgba(6, 114, 6, 1)"
  ]

  /** An opaque CSS colour string of the form `rgba(r, g, b, 1)`. */
  predicate IsOpaqueRgba(s: string)
  {
    |s| >= 9 && s[..5] == "rgba(" && s[|s| - 4..] == ", 1)"
  }

  /** `getColor(name)`: `undefined` (None) for a name the table lacks. */
  function GetColor(name: string): (r: Option<string>)
    ensures r.Some? <==> name in {"carbon", "darkRed", "brightRed", "darkBlue", "brightBlue", "darkGreen", "brightGreen"}
    ensures r.Some? ==> IsOpaqueRgba(r.value)
  {
    if name in ColorTable then Common.Some(ColorTable[name]) else Common.None
  }

  /** The fixed strings of the table. */
  lemma GetColorValues()
    ensures GetColor("carbon") == Common.Some("rgba(14, 14, 14, 1)")
    ensures GetColor("darkRed") == Common.Some("rgba(38, 12, 12, 1)")
    ensures GetColor("brightRed") == Common.Some("rgba(114, 6, 6, 1)")
    ensures GetColor("darkBlue") == Common.Some("rgba(12, 16, 38, 1)")
    ensures GetColor("brightBlue") == Common.Some("rgba(9, 12, 104, 1)")
    ensures GetColor("darkGreen") == Common.Some("rgba(12, 38, 12, 1)")
    ensures GetColor("brightGreen") == Common.Some("rgba(6, 114, 6, 1)")
  {
  }

  /** Names the scenes use that the table lacks come back undefined. */
  lemma GetColorUndefined()
    ensures GetColor("white").None?
    ensures GetColor("brightSilver").None?
    ensures GetColor("").None?
  {
  }

  /** No two names share a colour. */
  lemma GetColorInjective(a: string, b: string)
    requires GetColor(a).Some? && GetColor(a) == GetColor(b)
    ensures a == b
  {
  }

  /** The statuses `debugLog` accepts. */
  datatype Status = Ok | Warn | Err | Info

  /** What one call does: the format string it logs and whether it then
      throws. The CSS arguments of the `%c` directives are console styling
      and are not modelled. */
  datatype LogResult = LogResult(line: string, throws: bool)

  /** The `labelText` of a status's entry in `debugStatuses`. */
  function LabelText(status: Status): string
    requires status != Info
  {
    match status
    case Ok => "OK"
    case Warn => "Warning"
    case Err => "Error"
  }

  /** `debugLog(status, messageText)`. */
  function DebugLog(status: Status, messageText: string): (r: LogResult)
    ensures r.throws <==> status == Err
    ensures r.line == LogPrefix(status) + messageText + "."
  {
    if status == Info then
      LogResult("%c[Debug log]:%c " + messageText + ".", false)
    else
      var line := "%c[" + LabelText(status) + "]%c %c[Debug log]:%c " + messageText + ".";
      assert line == LogPrefix(status) + messageText + ".";
      LogResult(line, status == Err)
  }

  /** What a logged line holds before the message: an optional coloured
      status label, then the `[Debug log]:` bubble. */
  function LogPrefix(status: Status): (r: string)
    ensures |r| >= 17 && r[|r| - 17..] == "%c[Debug log]:%c "
    ensures status != Info ==> r[..3] == "%c[" && r[3..3 + |LabelText(status)|] == LabelText(status)
    ensures status == Info ==> |r| == 17
  {
    if status == Info then "%c[Debug log]:%c " else "%c[" + LabelText(status) + "]%c %c[Debug log]:%c "
  }

  /** The logged line keeps the message: two calls with the same status log
      the same line only for the same message. */
  lemma DebugLogKeepsMessage(status: Status, m1: string, m2: string)
    requires DebugLog(status, m1).line == DebugLog(status, m2).line
    ensures m1 == m2
  {
    var p := LogPrefix(status);
    var line := DebugLog(status, m1).line;
    assert line == p + m1 + "." == p + m2 + ".";
    assert |m1| == |m2|;
    MiddleOf(p, m1, ".");
    MiddleOf(p, m2, ".");
  }

  lemma MiddleOf(p: string, m: string, q: string)
    ensures (p + m + q)[|p|..|p| + |m|] == m
  {
  }
}
