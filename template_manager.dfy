/** The template name extracted from a requested resource name. */
module TemplateManager {

  /** The suffix the pattern `^(?<name>.+)\.cshtml$` strips. */
  const CshtmlSuffix: string := ".cshtml"

  /**
   * The `name` group of the pattern when it matches, and the requested name unchanged when it
   * does not. The pattern matches exactly the names that are a non-empty name followed by
   * `.cshtml` (compared case-sensitively), and that name is what it captures.
   */
  function TemplateName(templateName: string): (r: string)
    ensures forall name :: |name| > 0 && templateName == name + CshtmlSuffix ==> r == name
    ensures (forall name :: |name| > 0 ==> templateName != name + CshtmlSuffix) ==> r == templateName
    ensures r <= templateName
  {
    var n := |templateName|;
    if n > |CshtmlSuffix| && templateName[n - |CshtmlSuffix|..] == CshtmlSuffix then
      templateName[..n - |CshtmlSuffix|]
    else
      templateName
  }

  /** The bare suffix is not a match: `.+` needs at least one character before it. */
  lemma BareSuffixUnchanged()
    ensures TemplateName(".cshtml") == ".cshtml"
  {
  }

  /** Exactly one suffix is stripped. */
  lemma StripsOneSuffix(name: string)
    requires |name| > 0
    ensures TemplateName(name + CshtmlSuffix + CshtmlSuffix) == name + CshtmlSuffix
  {
    assert name + CshtmlSuffix + CshtmlSuffix == (name + CshtmlSuffix) + CshtmlSuffix;
  }

  /** Matching is case-sensitive: an upper-case suffix is left alone. */
  lemma UpperCaseSuffixUnchanged()
    ensures TemplateName("A.CSHTML") == "A.CSHTML"
  {
  }
}
