/**
 * The two idioms every add-form handler uses: a required text field is
 * rejected when `!value.trim()`, and an optional one is sent as
 * `value || undefined`.
 */
module Forms {
  import opened Wrappers
  import opened JsText

  /** `!s.trim()`: the field holds nothing but white space. */
  predicate Blank(s: string) {
    AllSpace(s)
  }

  /** `Blank` is `!s.trim()`: trimming leaves nothing exactly when the field is blank. */
  lemma BlankIffTrimEmpty(s: string)
    ensures Blank(s) <==> Trim(s) == ""
  {
    TrimEmptyIffAllSpace(s);
  }

  /** `s || undefined`: the empty string is left out of the payload, anything else is sent verbatim. */
  function OrUndefined(s: string): (r: Option<string>)
    ensures r.None? <==> s == ""
    ensures r.Some? ==> r.value == s
  {
    if Truthy(s) then Some(s) else None
  }
}
