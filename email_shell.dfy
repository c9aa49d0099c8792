/**
 * The email shell (`get_email_template` and `render_full_email`): a fixed
 * HTML document with the subject in its title, one slot for the body and one
 * for the sender's name, each marked by a placeholder that HTML and CSS
 * cannot produce by accident. The shell's markup and styles are stood in for
 * by four short fixed pieces.
 */
module EmailShell {
  import opened Outcomes
  import opened Strings

  const BodyPlaceholder: string := "__AI_EMAIL_BODY_CONTENT__"
  const SenderPlaceholder: string := "__SENDER_FULL_NAME__"
  const DefaultSubject: string := "Introduction from Sinx Solutions"
  const FallbackSenderName: string := "Sinx Solutions"

  // The fixed markup around the three slots (title, body, sender name).
  const ShellHead: string := "<html><head><title>"
  const ShellBeforeBody: string := "</title></head><body><div>"
  const ShellBeforeSender: string := "<p><strong>"
  const ShellTail: string := "</strong></p></div></body></html>"

  /** The shell around the three slots, with the subject in the first. */
  function Shell(subject: string, body: string, sender: string): string
  {
    ShellHead + subject + ShellBeforeBody + body + ShellBeforeSender + sender + ShellTail
  }

  /** `get_email_template(subject)`: the shell with both placeholders still in it. */
  function GetEmailTemplate(subject: string): (html: string)
    ensures Contains(html, BodyPlaceholder) && Contains(html, SenderPlaceholder)
  {
    var html := Shell(subject, BodyPlaceholder, SenderPlaceholder);
    var front := ShellHead + subject + ShellBeforeBody;
    var rest := ShellBeforeSender + SenderPlaceholder + ShellTail;
    assert html == (front + BodyPlaceholder) + rest;
    ContainsSuffix(front, BodyPlaceholder);
    ContainsPrefix(front + BodyPlaceholder, rest, BodyPlaceholder);
    var front' := front + BodyPlaceholder + ShellBeforeSender;
    assert html == (front' + SenderPlaceholder) + ShellTail;
    ContainsSuffix(front', SenderPlaceholder);
    ContainsPrefix(front' + SenderPlaceholder, ShellTail, SenderPlaceholder);
    html
  }

  /** `str(sender_name or "Sinx Solutions")`. */
  function SenderName(sender: Option<string>): (name: string)
    ensures name != []
  {
    if Given(sender) then sender.value else FallbackSenderName
  }

  /** `render_full_email`: both placeholders replaced with Python's `str.replace`. */
  function RenderFullEmail(body: string, sender: Option<string>, subject: string): string
  {
    Replace(Replace(GetEmailTemplate(subject), BodyPlaceholder, body), SenderPlaceholder, SenderName(sender))
  }

  /** `replace` across fixed pieces whose edges the pattern does not use acts on each slot alone. */
  lemma {:induction false} ReplaceAcrossPieces(a: string, s1: string, b: string, s2: string, c: string, s3: string, d: string, p: string, n: string)
    requires p != []
    requires a != [] && a[|a| - 1] !in p && d != [] && d[0] !in p
    requires b != [] && b[0] !in p && b[|b| - 1] !in p
    requires c != [] && c[0] !in p && c[|c| - 1] !in p
    requires Replace(a, p, n) == a && Replace(b, p, n) == b && Replace(c, p, n) == c && Replace(d, p, n) == d
    ensures Replace(a + s1 + b + s2 + c + s3 + d, p, n)
         == a + Replace(s1, p, n) + b + Replace(s2, p, n) + c + Replace(s3, p, n) + d
  {
    var x1 := a + s1;
    var x2 := x1 + b;
    var x3 := x2 + s2;
    var x4 := x3 + c;
    var x5 := x4 + s3;
    assert x2[|x2| - 1] == b[|b| - 1];
    assert x4[|x4| - 1] == c[|c| - 1];
    ReplaceSplit(x5, d, p, n);
    ReplaceSplit(x4, s3, p, n);
    ReplaceSplit(x3, c, p, n);
    ReplaceSplit(x2, s2, p, n);
    ReplaceSplit(x1, b, p, n);
    ReplaceSplit(a, s1, p, n);
  }

  /** The fixed markup holds no underscore, so a placeholder-like pattern leaves it alone. */
  lemma MarkupUntouched(p: string, n: string)
    requires p != [] && p[0] == '_'
    ensures Replace(ShellHead, p, n) == ShellHead && Replace(ShellBeforeBody, p, n) == ShellBeforeBody
    ensures Replace(ShellBeforeSender, p, n) == ShellBeforeSender && Replace(ShellTail, p, n) == ShellTail
  {
    ReplaceAbsent(ShellHead, p, n);
    ReplaceAbsent(ShellBeforeBody, p, n);
    ReplaceAbsent(ShellBeforeSender, p, n);
    ReplaceAbsent(ShellTail, p, n);
  }

  /** `replace` with a placeholder-like pattern passes through the fixed markup and acts on each slot alone. */
  lemma ReplaceInShell(subject: string, body: string, sender: string, p: string, n: string)
    requires p != [] && p[0] == '_' && '<' !in p && '>' !in p
    ensures Replace(Shell(subject, body, sender), p, n)
         == Shell(Replace(subject, p, n), Replace(body, p, n), Replace(sender, p, n))
  {
    assert ShellHead[|ShellHead| - 1] == '>';
    assert ShellBeforeBody[0] == '<' && ShellBeforeBody[|ShellBeforeBody| - 1] == '>';
    assert ShellBeforeSender[0] == '<' && ShellBeforeSender[|ShellBeforeSender| - 1] == '>';
    assert ShellTail[0] == '<';
    MarkupUntouched(p, n);
    ReplaceAcrossPieces(ShellHead, subject, ShellBeforeBody, body, ShellBeforeSender, sender, ShellTail, p, n);
  }

  /**
   * The rendered email is the shell with the body and the sender's name in
   * their slots, provided neither the subject nor the body carries a
   * placeholder of its own (the replacements act on every occurrence).
   */
  lemma RenderFullEmailFillsSlots(body: string, sender: Option<string>, subject: string)
    requires !Contains(subject, BodyPlaceholder) && !Contains(subject, SenderPlaceholder)
    requires !Contains(body, SenderPlaceholder)
    ensures RenderFullEmail(body, sender, subject) == Shell(subject, body, SenderName(sender))
  {
    BodyPass(body, subject);
    SenderPass(body, SenderName(sender), subject);
  }

  /** The first replacement puts the body in its slot. */
  lemma BodyPass(body: string, subject: string)
    requires !Contains(subject, BodyPlaceholder)
    ensures Replace(GetEmailTemplate(subject), BodyPlaceholder, body) == Shell(subject, body, SenderPlaceholder)
  {
    ReplaceInShell(subject, BodyPlaceholder, SenderPlaceholder, BodyPlaceholder, body);
    ReplaceNotContained(subject, BodyPlaceholder, body);
    ReplaceWhole(BodyPlaceholder, body);
    ReplaceShort(SenderPlaceholder, BodyPlaceholder, body);
  }

  /** The second replacement puts the sender's name in its slot. */
  lemma SenderPass(body: string, name: string, subject: string)
    requires !Contains(subject, SenderPlaceholder) && !Contains(body, SenderPlaceholder)
    ensures Replace(Shell(subject, body, SenderPlaceholder), SenderPlaceholder, name) == Shell(subject, body, name)
  {
    ReplaceInShell(subject, body, SenderPlaceholder, SenderPlaceholder, name);
    ReplaceNotContained(subject, SenderPlaceholder, name);
    ReplaceNotContained(body, SenderPlaceholder, name);
    ReplaceWhole(SenderPlaceholder, name);
  }
}
