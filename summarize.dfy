/** The one-line summary of a tool's input that the client shows on a tool card and a
    permission card (src/frontend/utils/summarize-tool-input.ts). */
module Summarize {
  import opened Values
  import opened Text

  /** The longest Bash command shown in full. */
  const BashLimit: nat := 80
  const Ellipsis: string := "..."

  /** `typeof obj[key] === "string" ? obj[key] : ""` */
  function FieldOrEmpty(input: Json, key: string): (s: string)
    ensures StringField(input, key).Some? ==> s == StringField(input, key).value
    ensures StringField(input, key).None? ==> s == ""
  {
    var f := StringField(input, key);
    if f.Some? then f.value else ""
  }

  /** The Bash command cut to its first 80 characters, with "..." after a cut. */
  function Shorten(command: string): (s: string)
    ensures |s| <= BashLimit + |Ellipsis|
    ensures |command| <= BashLimit ==> s == command
    ensures |command| > BashLimit ==> IsPrefix(command[..BashLimit], s) && s[BashLimit..] == Ellipsis
  {
    if |command| > BashLimit then command[..BashLimit] + Ellipsis else command
  }

  /** `summarizeToolInput`: the input's salient string field for the tools it knows, "" for
      every other tool and for an input that is falsy or not an object. */
  function SummarizeToolInput(toolName: string, input: Json): (s: string)
    ensures !(input.JObject? || input.JArray?) ==> s == ""
    ensures toolName in {"Read", "Write", "Edit"} ==> s == FieldOrEmpty(input, "file_path")
    ensures toolName == "Bash" ==> s == Shorten(FieldOrEmpty(input, "command"))
    ensures toolName == "Glob" ==> s == FieldOrEmpty(input, "pattern")
    ensures toolName == "Grep" ==> s == (if StringField(input, "pattern").Some? then "/" + StringField(input, "pattern").value + "/" else "")
    ensures toolName == "WebFetch" ==> s == FieldOrEmpty(input, "url")
    ensures toolName == "Task" ==> s == FieldOrEmpty(input, "description")
    ensures toolName !in {"Read", "Write", "Edit", "Bash", "Glob", "Grep", "WebFetch", "Task"} ==> s == ""
  {
    if !(input.JObject? || input.JArray?) then ""
    else if toolName == "Read" || toolName == "Write" || toolName == "Edit" then FieldOrEmpty(input, "file_path")
    else if toolName == "Bash" then
      var command := StringField(input, "command");
      if command.Some? then Shorten(command.value) else ""
    else if toolName == "Glob" then FieldOrEmpty(input, "pattern")
    else if toolName == "Grep" then
      var pattern := StringField(input, "pattern");
      if pattern.Some? then "/" + pattern.value + "/" else ""
    else if toolName == "WebFetch" then FieldOrEmpty(input, "url")
    else if toolName == "Task" then FieldOrEmpty(input, "description")
    else ""
  }

  /** A Bash summary is never longer than 83 characters and agrees with the command on the
      characters it shows. It is the command itself when that fits; a longer command is cut
      to exactly 83 characters ending in "..." (so a summary equal to the command does not
      prove the command was short: an 83-character command ending in "..." is its own
      summary). */
  lemma {:induction false} BashSummaryBound(input: Json)
    requires input.JObject? && StringField(input, "command").Some?
    ensures var command := StringField(input, "command").value;
      var s := SummarizeToolInput("Bash", input);
      && |s| <= 83
      && (|command| <= BashLimit ==> s == command)
      && (|command| > BashLimit ==> |s| == 83 && s[BashLimit..] == Ellipsis)
      && var shown := if |command| < BashLimit then |command| else BashLimit;
         shown <= |s| && s[..shown] == command[..shown]
  {
    var command := StringField(input, "command").value;
    var s := SummarizeToolInput("Bash", input);
    assert s == Shorten(command);
    if |command| > BashLimit {
      assert |s| == BashLimit + 3;
      assert s[..BashLimit] == command[..BashLimit];
    }
  }

  /** A Grep summary gives the pattern back between its slashes. */
  lemma GrepSummaryRoundTrip(input: Json)
    requires input.JObject? && StringField(input, "pattern").Some?
    ensures var s := SummarizeToolInput("Grep", input);
      |s| >= 2 && s[0] == '/' && s[|s| - 1] == '/' && s[1..|s| - 1] == StringField(input, "pattern").value
  {
  }
}
