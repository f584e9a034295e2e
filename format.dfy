/** How the relay turns an event into notification text: the submitter's
    name, the plain-text message and the three layout blocks. */
module Format {
  import opened Wrappers
  import opened Js
  import opened Slack

  const UnknownUser := "Unknown User"
  const PlainPrefix := "\U{1F680} New submission from "
  const RichPrefix := "New submission from "
  const HeaderTitle := "New Submission \U{1F680}"
  const Fence := "```"

  /** `payload.name ?? "Unknown User"`: only a `null` or absent name is
      replaced; an empty string, `0` or `false` is kept. */
  function SubmitterName(payload: Value): (name: Value)
    ensures Nullish(Get(payload, "name")) ==> name == Str(UnknownUser)
    ensures !Nullish(Get(payload, "name")) ==> name == Get(payload, "name")
    ensures !Nullish(name)
  {
    var given := Get(payload, "name");
    if Nullish(given) then Str(UnknownUser) else given
  }

  /** The name as the template literals render it; rendering a name object
      with its own `toString` member throws. */
  function NameText(rt: Runtime, payload: Value): (r: Completion<string>)
    ensures r.TypeError? <==> ToPrimitiveThrows(SubmitterName(payload))
    ensures Nullish(Get(payload, "name")) ==> r == Normal(UnknownUser)
    ensures Get(payload, "name").Str? ==> r == Normal(Get(payload, "name").s)
  {
    ToString(rt, SubmitterName(payload))
  }

  /** `🚀 New submission from ${name}\n\n${pretty}`: the header line, a
      blank line, then the pretty-printed payload as its last part. */
  function PlainText(name: string, pretty: string): (text: string)
    ensures |text| == |PlainPrefix| + |name| + 2 + |pretty|
    ensures text[..|PlainPrefix|] == PlainPrefix
    ensures text[|PlainPrefix|..|PlainPrefix| + |name|] == name
    ensures text[|PlainPrefix| + |name|..|PlainPrefix| + |name| + 2] == "\n\n"
    ensures text[|text| - |pretty|..] == pretty
  {
    PlainPrefix + name + "\n\n" + pretty
  }

  /** The text of the block message: `New submission from ${name}`. */
  function RichText(name: string): (text: string)
    ensures |text| == |RichPrefix| + |name|
    ensures text[..|RichPrefix|] == RichPrefix && text[|RichPrefix|..] == name
  {
    RichPrefix + name
  }

  /** The block list: a header, a section naming the submitter, and a
      section with the pretty-printed payload inside a code fence. */
  function SubmissionBlocks(name: string, pretty: string): (bs: seq<Block>)
    ensures |bs| == 3
    ensures bs[0].kind == "header" && bs[1].kind == "section" && bs[2].kind == "section"
    ensures bs[0].text == TextObject("plain_text", HeaderTitle)
    ensures bs[1].text == TextObject("mrkdwn", "*Name:* " + name)
    ensures bs[2].text == TextObject("mrkdwn", Fence + pretty + Fence)
  {
    [ Block("header", TextObject("plain_text", HeaderTitle)),
      Block("section", TextObject("mrkdwn", "*Name:* " + name)),
      Block("section", TextObject("mrkdwn", Fence + pretty + Fence)) ]
  }

  /** The index of the first line feed in `s`, or `|s|` when there is none. */
  function FirstNewline(s: string): (i: nat)
    ensures i <= |s|
    ensures forall j :: 0 <= j < i ==> s[j] != '\n'
    ensures i < |s| ==> s[i] == '\n'
  {
    if s == [] || s[0] == '\n' then 0 else 1 + FirstNewline(s[1..])
  }

  /** Reads a plain-text message back into the name on its first line and
      the payload text after the blank line. */
  function SplitPlainText(text: string): Option<(string, string)> {
    if |text| < |PlainPrefix| || text[..|PlainPrefix|] != PlainPrefix then None
    else
      var rest := text[|PlainPrefix|..];
      var i := FirstNewline(rest);
      if i + 1 < |rest| && rest[i + 1] == '\n' then Some((rest[..i], rest[i + 2..]))
      else None
  }

  lemma {:induction false} FirstNewlineAfter(name: string, tail: string)
    requires '\n' !in name
    ensures FirstNewline(name + "\n" + tail) == |name|
  {
    var s := name + "\n" + tail;
    assert s[|name|] == '\n';
    assert forall j :: 0 <= j < |name| ==> s[j] == name[j];
  }

  /** The plain-text message carries the name and the whole pretty-printed
      payload, and both can be read back from it, provided the name is a
      single line. */
  lemma {:induction false} PlainTextRoundTrip(name: string, pretty: string)
    requires '\n' !in name
    ensures SplitPlainText(PlainText(name, pretty)) == Some((name, pretty))
  {
    var text := PlainText(name, pretty);
    assert text[..|PlainPrefix|] == PlainPrefix;
    var rest := text[|PlainPrefix|..];
    assert rest == name + "\n" + ("\n" + pretty);
    FirstNewlineAfter(name, "\n" + pretty);
    assert rest[..|name|] == name;
    assert rest[|name| + 2..] == pretty;
  }
}
