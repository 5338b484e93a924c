/**
 * The prompt forwarder's string builder: a fixed instructional prefix
 * followed by three labelled lines.
 */
module Prompt {
  import opened Basics

  const MasterPrompt := "You are tasked with providing information on the payload separation system. Please do not return empty and answer the following in details:\n"

  /** The single user message sent to the fine-tuned model. */
  function ComposePrompt(itr: string, message: string, confidence: string): string {
    MasterPrompt + "itr: " + itr + "\nmessage: " + message + "\nConfidence: " + confidence + "\n"
  }

  /** `str.split("\n")`: the pieces between newlines; there is always one more piece than newlines. */
  function SplitLines(s: string): (pieces: seq<string>)
    ensures |pieces| >= 1
  {
    if s == [] then [""]
    else
      var rest := SplitLines(s[1..]);
      if s[0] == '\n' then [""] + rest else [[s[0]] + rest[0]] + rest[1..]
  }

  /** The text after `tag` when `line` starts with it. */
  function After(line: string, tag: string): Option<string> {
    if StartsWith(line, tag) then Some(line[|tag|..]) else None
  }

  /** Reads the three fields back out of a composed prompt. */
  function ParsePrompt(p: string): Option<(string, string, string)> {
    if !StartsWith(p, MasterPrompt) then None
    else
      var lines := SplitLines(p[|MasterPrompt|..]);
      if |lines| != 4 || lines[3] != "" then None
      else
        match (After(lines[0], "itr: "), After(lines[1], "message: "), After(lines[2], "Confidence: "))
        case (Some(itr), Some(message), Some(confidence)) => Some((itr, message, confidence))
        case _ => None
  }

  /** Splitting a line without newlines, and then a newline, starts with that line. */
  lemma {:induction false} SplitAfterLine(a: string, b: string)
    requires '\n' !in a
    ensures SplitLines(a + "\n" + b) == [a] + SplitLines(b)
    decreases |a|
  {
    if a == [] {
      assert a + "\n" + b == "\n" + b;
      assert ("\n" + b)[1..] == b;
    } else {
      assert (a + "\n" + b)[1..] == a[1..] + "\n" + b;
      assert (a + "\n" + b)[0] == a[0];
      SplitAfterLine(a[1..], b);
      assert [a[0]] + a[1..] == a;
    }
  }

  lemma NoNewlineJoin(a: string, b: string)
    requires '\n' !in a && '\n' !in b
    ensures '\n' !in a + b
  {
  }

  lemma AfterTag(tag: string, x: string)
    ensures After(tag + x, tag) == Some(x)
  {
    assert (tag + x)[..|tag|] == tag;
    assert (tag + x)[|tag|..] == x;
  }

  /** The three labelled lines of a prompt, each ended by a newline. */
  function Layout(itr: string, message: string, confidence: string): string {
    ("itr: " + itr) + "\n" + ("message: " + message) + "\n" + ("Confidence: " + confidence) + "\n"
  }

  /** After any prefix, the prompt's template text is that prefix followed by the layout. */
  lemma TemplateLayout(prefix: string, itr: string, message: string, confidence: string)
    ensures prefix + "itr: " + itr + "\nmessage: " + message + "\nConfidence: " + confidence + "\n"
         == prefix + Layout(itr, message, confidence)
  {
    assert "\nmessage: " == "\n" + "message: ";
    assert "\nConfidence: " == "\n" + "Confidence: ";
  }

  /** A sequence with a prefix starts with it, and what follows is the rest. */
  lemma PrefixRest(a: string, b: string)
    ensures StartsWith(a + b, a) && (a + b)[|a|..] == b
  {
    assert (a + b)[..|a|] == a;
  }

  /** The layout splits back into exactly its three lines and an empty tail. */
  lemma LayoutLines(itr: string, message: string, confidence: string)
    requires '\n' !in itr && '\n' !in message && '\n' !in confidence
    ensures SplitLines(Layout(itr, message, confidence)) == ["itr: " + itr, "message: " + message, "Confidence: " + confidence, ""]
  {
    var l0, l1, l2 := "itr: " + itr, "message: " + message, "Confidence: " + confidence;
    NoNewlineJoin("itr: ", itr);
    NoNewlineJoin("message: ", message);
    NoNewlineJoin("Confidence: ", confidence);
    BodyLines(l0, l1, l2);
  }

  /** The part after the prefix splits into the three lines and an empty tail. */
  lemma BodyLines(l0: string, l1: string, l2: string)
    requires '\n' !in l0 && '\n' !in l1 && '\n' !in l2
    ensures SplitLines(l0 + "\n" + l1 + "\n" + l2 + "\n") == [l0, l1, l2, ""]
  {
    var t2 := l2 + "\n";
    SplitAfterLine(l2, "");
    assert l2 + "\n" + "" == t2;
    var t1 := l1 + "\n" + t2;
    SplitAfterLine(l1, t2);
    var t0 := l0 + "\n" + t1;
    SplitAfterLine(l0, t1);
    Regroup(l0, l1, l2);
  }

  lemma Regroup(l0: string, l1: string, l2: string)
    ensures l0 + "\n" + (l1 + "\n" + (l2 + "\n")) == l0 + "\n" + l1 + "\n" + l2 + "\n"
  {
  }

  /**
   * The composed prompt is the fixed prefix followed by the three labelled
   * lines, and when no field holds a newline the three fields can be read
   * back from it.
   */
  lemma ParseComposed(itr: string, message: string, confidence: string)
    requires '\n' !in itr && '\n' !in message && '\n' !in confidence
    ensures StartsWith(ComposePrompt(itr, message, confidence), MasterPrompt)
    ensures ParsePrompt(ComposePrompt(itr, message, confidence)) == Some((itr, message, confidence))
  {
    TemplateLayout(MasterPrompt, itr, message, confidence);
    PrefixRest(MasterPrompt, Layout(itr, message, confidence));
    LayoutLines(itr, message, confidence);
    AfterTag("itr: ", itr);
    AfterTag("message: ", message);
    AfterTag("Confidence: ", confidence);
  }

  /** Distinct newline-free requests compose distinct prompts. */
  lemma ComposeInjective(i1: string, m1: string, c1: string, i2: string, m2: string, c2: string)
    requires '\n' !in i1 && '\n' !in m1 && '\n' !in c1
    requires '\n' !in i2 && '\n' !in m2 && '\n' !in c2
    requires ComposePrompt(i1, m1, c1) == ComposePrompt(i2, m2, c2)
    ensures i1 == i2 && m1 == m2 && c1 == c2
  {
    ParseComposed(i1, m1, c1);
    ParseComposed(i2, m2, c2);
  }

  /** A newline inside a field makes two requests compose the same prompt. */
  lemma NewlineMakesAmbiguous()
    ensures ComposePrompt("1\nmessage: a", "b", "c") == ComposePrompt("1", "a\nmessage: b", "c")
  {
  }
}
