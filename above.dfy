/**
 * The back-reference command `<@&ROLE> above N`: the whole message content
 * must match `^<@&\d+> above (\d+)$`, and the submission is then retargeted
 * to the message that the channel cache yields for the count N + 1 (an input
 * of the model).
 */
module Above {
  import opened Wrappers
  import opened Text

  const Open := "<@&"
  const Middle := "> above "

  /** The command text for role digits `role` and count digits `count`. */
  function CommandText(role: string, count: string): string {
    Open + (role + (Middle + count))
  }

  /** The content matches the regular expression as a whole. */
  ghost predicate IsCommand(s: string) {
    exists role, count :: IsDigits(role) && IsDigits(count) && s == CommandText(role, count)
  }

  /**
   * The target count of an `above` command (the captured number plus one),
   * or None when the content is not such a command.
   */
  function ParseAbove(s: string): (r: Option<nat>)
    ensures r.Some? ==> r.value >= 1
  {
    if HasPrefix(s, Open) then ParseMention(s[|Open|..]) else None
  }

  /** After `<@&`: the role digits, then the rest of the command. */
  function ParseMention(rest: string): Option<nat> {
    var n := DigitRun(rest);
    if n == 0 then None else ParseCount(rest[n..])
  }

  /** After the role digits: `> above ` and the count digits, up to the end. */
  function ParseCount(tail: string): Option<nat> {
    if HasPrefix(tail, Middle) && IsDigits(tail[|Middle|..]) then Some(DigitsValue(tail[|Middle|..]) + 1)
    else None
  }

  /** Whatever the parser accepts is a command, and the target is the count plus one. */
  lemma ParseAboveSound(s: string)
    requires ParseAbove(s).Some?
    ensures exists role, count ::
              IsDigits(role) && IsDigits(count) && s == CommandText(role, count)
              && ParseAbove(s).value == DigitsValue(count) + 1
  {
    assert HasPrefix(s, Open);
    var rest := s[|Open|..];
    assert ParseAbove(s) == ParseMention(rest);
    var n := DigitRun(rest);
    assert n > 0;
    var tail := rest[n..];
    assert ParseMention(rest) == ParseCount(tail);
    assert HasPrefix(tail, Middle) && IsDigits(tail[|Middle|..]);
    var role, count := rest[..n], tail[|Middle|..];
    assert IsDigits(role);
    assert ParseAbove(s).value == DigitsValue(count) + 1;
    assert s == s[..|Open|] + rest;
    assert rest == role + tail;
    assert tail == tail[..|Middle|] + count;
    assert s == CommandText(role, count);
  }

  /** The digit run of a role id stops at the `>` that closes the mention. */
  lemma RoleRun(role: string, after: string)
    requires IsDigits(role)
    ensures DigitRun(role + (Middle + after)) == |role|
  {
    var rest := role + (Middle + after);
    var n := DigitRun(rest);
    assert rest[|role|] == '>';
    assert forall i :: 0 <= i < |role| ==> rest[i] == role[i];
  }

  lemma CountAccepts(count: string)
    requires IsDigits(count)
    ensures ParseCount(Middle + count) == Some(DigitsValue(count) + 1)
  {
    PrefixOfConcat(Middle, count);
  }

  lemma MentionAccepts(role: string, count: string)
    requires IsDigits(role) && IsDigits(count)
    ensures ParseMention(role + (Middle + count)) == Some(DigitsValue(count) + 1)
  {
    var rest := role + (Middle + count);
    RoleRun(role, count);
    assert rest[|role|..] == Middle + count;
    CountAccepts(count);
  }

  /** Every command is accepted, with target the count plus one. */
  lemma ParseAboveComplete(role: string, count: string)
    requires IsDigits(role) && IsDigits(count)
    ensures ParseAbove(CommandText(role, count)) == Some(DigitsValue(count) + 1)
  {
    PrefixOfConcat(Open, role + (Middle + count));
    MentionAccepts(role, count);
  }

  /** The parser decides exactly the language of the regular expression. */
  lemma ParseAboveExact(s: string)
    ensures ParseAbove(s).Some? <==> IsCommand(s)
  {
    if ParseAbove(s).Some? {
      ParseAboveSound(s);
    }
    if IsCommand(s) {
      var role, count :| IsDigits(role) && IsDigits(count) && s == CommandText(role, count);
      ParseAboveComplete(role, count);
    }
  }

  /** `above N` written with N's decimal spelling targets N + 1. */
  lemma AboveTarget(role: string, n: nat)
    requires IsDigits(role)
    ensures ParseAbove(CommandText(role, NatToDigits(n))) == Some(n + 1)
  {
    DigitsRoundTrip(n);
    ParseAboveComplete(role, NatToDigits(n));
  }
}
