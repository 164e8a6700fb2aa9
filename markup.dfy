/**
 * The HTML text of the info windows of both scripts: lines separated by
 * "<br>", names wrapped in `<strong>`, and lines produced by `Drupal.t`
 * with one placeholder substituted.
 */
module Markup {
  import opened Text

  /** The separator of the lines of an info window. */
  const Br := "<br>"

  /**
   * `Drupal.t(template, {key: value})` when no translation of `template`
   * is available: the first occurrence of the placeholder `key` is
   * replaced by `value`, taken literally.
   */
  function Translate(template: string, key: string, value: string): string
    requires key != []
  {
    ReplaceFirst(template, key, value)
  }

  /** The translated phone line, with the number in place of its placeholder. */
  function PhoneLine(phone: string): string
  {
    Translate("Phone: @phone", "@phone", phone)
  }

  /** A name in bold. */
  function Strong(name: string): string
  {
    "<strong>" + name + "</strong>"
  }

  /** No '<' at all: text that contains no markup. */
  predicate Plain(s: string)
  {
    forall i :: 0 <= i < |s| ==> s[i] != '<'
  }

  /** Every '<' in `s` is followed by a character other than 'b'. */
  predicate NoBreakTag(s: string)
  {
    forall i :: 0 <= i < |s| && s[i] == '<' ==> i + 1 < |s| && s[i + 1] != 'b'
  }

  /** The phone line reads "Phone: " followed by the number. */
  lemma PhoneLineText(phone: string)
    ensures PhoneLine(phone) == "Phone: " + phone
  {
    DelimitsWithoutFirstChar("Phone: ", "@phone");
    ReplaceFirstDelimited("Phone: ", "@phone", phone, "");
    assert "Phone: " + "@phone" + "" == "Phone: @phone";
  }

  lemma NoBreakTagConcat(a: string, b: string)
    requires NoBreakTag(a) && NoBreakTag(b)
    ensures NoBreakTag(a + b)
  {
  }

  /** A line without a "<b" and not ending in '<' cannot be confused with the separator. */
  lemma NoBreakTagDelimits(p: string)
    requires NoBreakTag(p)
    ensures Delimits(p, Br)
  {
    forall i: nat | i < |p|
      ensures !OccursAt(p + Br, Br, i)
    {
      assert (p + Br)[i] == p[i];
      if p[i] == '<' {
        assert (p + Br)[i + 1] == p[i + 1];
      }
    }
  }

  /** A bold plain name, and a phone line with a plain number, are safe lines. */
  lemma SafeLines(name: string, phone: string)
    requires Plain(name) && Plain(phone)
    ensures NoBreakTag(Strong(name)) && NoBreakTag(PhoneLine(phone))
  {
    assert "<strong>" == ['<', 's', 't', 'r', 'o', 'n', 'g', '>'];
    assert "</strong>" == ['<', '/', 's', 't', 'r', 'o', 'n', 'g', '>'];
    NoBreakTagConcat("<strong>", name);
    NoBreakTagConcat("<strong>" + name, "</strong>");
    PhoneLineText(phone);
    assert Plain("Phone: " + phone);
  }
}
