/**
 * Transcript rendering of close-ticket (bot.py:109-112): each fetched
 * message becomes the line "author: content", the lines are joined with
 * "\n", and the joined text is cut to its first 1900 characters before it is
 * posted to the logging channel. Split (Python's `str.split("\n")`) is the
 * reference for Join: joining the pieces of any text gives the text back
 * (JoinSplit), and splitting the join of a non-empty list of lines gives the
 * lines back when none holds a line break (SplitJoin). Without that condition
 * a transcript is ambiguous: a two-line message reads like two messages.
 */
module Transcript {
  import opened ChannelNames

  /** Characters of transcript kept in the log post (bot.py:112). */
  const TranscriptLimit: nat := 1900

  /** The platform refuses a message longer than this. */
  const MessageLimit: nat := 2000

  /** One message of the channel history: `m.author` rendered as text and `m.content`. */
  datatype Message = Message(author: string, content: string)

  /**
   * `f"{m.author}: {m.content}"`: the author, then ": ", then the content; a
   * line break in it comes from the author or the content.
   */
  function Line(m: Message): (line: string)
    ensures |line| == |m.author| + 2 + |m.content|
    ensures line[..|m.author|] == m.author && line[|m.author|..|m.author| + 2] == ": "
    ensures line[|m.author| + 2..] == m.content
    ensures '\n' !in m.author && '\n' !in m.content ==> '\n' !in line
  {
    m.author + ": " + m.content
  }

  function Lines(history: seq<Message>): (lines: seq<string>)
    ensures |lines| == |history|
    ensures forall i :: 0 <= i < |history| ==> lines[i] == Line(history[i])
  {
    if history == [] then [] else [Line(history[0])] + Lines(history[1..])
  }

  /** Total number of characters in `lines`. */
  function TotalLength(lines: seq<string>): nat
  {
    if lines == [] then 0 else |lines[0]| + TotalLength(lines[1..])
  }

  /**
   * `"\n".join(lines)`: every character of every line plus one separator
   * between each two lines, starting with the first line.
   */
  function Join(lines: seq<string>): (text: string)
    ensures |lines| >= 1 ==> |text| == TotalLength(lines) + |lines| - 1
    ensures |lines| >= 1 ==> text[..|lines[0]|] == lines[0]
    ensures lines == [] ==> text == ""
  {
    if |lines| == 0 then ""
    else if |lines| == 1 then lines[0]
    else lines[0] + "\n" + Join(lines[1..])
  }

  /** Index of the first line break of `s`. */
  function FirstBreak(s: string): (i: nat)
    requires '\n' in s
    ensures i < |s| && s[i] == '\n' && '\n' !in s[..i]
  {
    if s[0] == '\n' then 0 else 1 + FirstBreak(s[1..])
  }

  /** `s.split("\n")`: never empty, and no piece holds a line break. */
  function Split(s: string): (pieces: seq<string>)
    ensures |pieces| >= 1
    ensures forall i :: 0 <= i < |pieces| ==> '\n' !in pieces[i]
    decreases |s|
  {
    if '\n' in s then
      var i := FirstBreak(s);
      [s[..i]] + Split(s[i + 1..])
    else
      [s]
  }

  /** Python's `s[:n]`. */
  function Truncate(s: string, n: nat): (r: string)
    ensures |r| <= n && r <= s
    ensures |s| <= n ==> r == s
    ensures |s| > n ==> |r| == n
  {
    if |s| <= n then s else s[..n]
  }

  /**
   * The transcript text posted for a history (bot.py:109-112): never longer
   * than 1900 characters, a prefix of the full text, and all of it when the
   * full text fits.
   */
  function TranscriptBody(history: seq<Message>): (body: string)
    ensures |body| <= TranscriptLimit
    ensures body <= Join(Lines(history))
    ensures |Join(Lines(history))| <= TranscriptLimit ==> body == Join(Lines(history))
    ensures |Join(Lines(history))| > TranscriptLimit ==> |body| == TranscriptLimit
  {
    Truncate(Join(Lines(history)), TranscriptLimit)
  }

  /** Opening of the log post, before the channel name. */
  const LogHeader: string := "\U{1F4C4} Transcript of `"

  /**
   * The message posted to the logging channel (bot.py:112): the header and
   * the channel name, the transcript in a code block, and 26 characters of
   * decoration in all.
   */
  function LogPost(channelName: string, history: seq<Message>): (post: string)
    ensures |post| == |channelName| + |TranscriptBody(history)| + 26
    ensures post[..|LogHeader| + |channelName|] == LogHeader + channelName
    ensures post[|post| - 3 - |TranscriptBody(history)|..|post| - 3] == TranscriptBody(history)
    ensures post[|post| - 3..] == "```"
  {
    LogHeader + channelName + "`:\n```" + TranscriptBody(history) + "```"
  }

  /** The first line break of `a + "\n" + b` is the one after `a` when `a` has none. */
  lemma FirstBreakAfter(a: string, b: string)
    requires '\n' !in a
    ensures FirstBreak(a + "\n" + b) == |a|
  {
    var s := a + "\n" + b;
    assert s[|a|] == '\n';
    var i := FirstBreak(s);
    assert forall j :: 0 <= j < |a| ==> s[j] == a[j];
  }

  /** Splitting a joined text gives back its lines when none holds a line break. */
  lemma {:induction false} SplitJoin(lines: seq<string>)
    requires |lines| >= 1
    requires forall i :: 0 <= i < |lines| ==> '\n' !in lines[i]
    ensures Split(Join(lines)) == lines
  {
    if |lines| > 1 {
      var head, tail := lines[0], lines[1..];
      var s := head + "\n" + Join(tail);
      assert Join(lines) == s;
      FirstBreakAfter(head, Join(tail));
      assert s[..|head|] == head;
      assert s[|head| + 1..] == Join(tail);
      SplitJoin(tail);
      assert lines == [head] + tail;
    }
  }

  /** Joining the pieces of a text gives back the text. */
  lemma {:induction false} JoinSplit(s: string)
    ensures Join(Split(s)) == s
    decreases |s|
  {
    if '\n' in s {
      var i := FirstBreak(s);
      var rest := Split(s[i + 1..]);
      JoinSplit(s[i + 1..]);
      var pieces := [s[..i]] + rest;
      assert pieces[1..] == rest;
      assert s == s[..i] + "\n" + s[i + 1..];
    }
  }

  /**
   * When nothing was cut and no author or content holds a line break, the
   * transcript gives back exactly one line per message, in order.
   */
  lemma TranscriptRecoversLines(history: seq<Message>)
    requires |history| >= 1
    requires forall i :: 0 <= i < |history| ==> '\n' !in history[i].author && '\n' !in history[i].content
    requires |Join(Lines(history))| <= TranscriptLimit
    ensures Split(TranscriptBody(history)) == Lines(history)
  {
    var lines := Lines(history);
    forall i | 0 <= i < |lines|
      ensures '\n' !in lines[i]
    {
      assert lines[i] == history[i].author + ": " + history[i].content;
    }
    SplitJoin(lines);
  }

  /** The log post of a ticket channel stays within the platform's message limit. */
  lemma LogPostFits(user: nat, history: seq<Message>)
    requires user < 0x1_0000_0000_0000_0000
    ensures |LogPost(ChannelName(user), history)| <= MessageLimit
  {
    ChannelNameLength(user);
  }
}
