/** The failure messages of the prompt plugin's `run`, as `%` templates.
    Long literals are written in pieces so that the verifier can check each
    piece for a '%' on its own. */
module Messages {

  /** The text on either side of the one placeholder of the invalid-argument template. */
  const InvalidArgPrefix: string := "'"
  const InvalidArgSuffix: string := "' is not a " + "valid argument " + "for prompt"

  const InvalidArgTemplate: string := InvalidArgPrefix + "%s" + InvalidArgSuffix
  const MultiCombinedTemplate: string :=
    "'multi' cannot " + "be combined with " + "additional " + "arguments."
  const MultiNotListTemplate: string :=
    "'multi' must be " + "a list of " + "individual " + "messages."

  lemma InvalidArgTextPlain()
    ensures '%' !in InvalidArgPrefix && '%' !in InvalidArgSuffix
  {
  }

  lemma MultiCombinedTextPlain()
    ensures '%' !in MultiCombinedTemplate
  {
  }

  lemma MultiNotListTextPlain()
    ensures '%' !in MultiNotListTemplate
  {
  }

  /** No literal text of `run`'s templates contains a '%'. */
  lemma TemplateTextsPlain()
    ensures '%' !in InvalidArgPrefix && '%' !in InvalidArgSuffix
    ensures '%' !in MultiCombinedTemplate && '%' !in MultiNotListTemplate
  {
    InvalidArgTextPlain();
    MultiCombinedTextPlain();
    MultiNotListTextPlain();
  }
}
