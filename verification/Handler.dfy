/** Which objects are accepted (internal/resources/handler.go). */
module Handler {
  import opened Collections
  import opened Blueprint

  predicate IsOptOut(a: Annotations) {
    TextOf(Lookup(a, AtEnabled)) == "false" || TextOf(Lookup(a, AtEnabled)) == "0"
  }

  predicate HasRequiredAnnotations(a: Annotations) {
    IsTruthy(TextOf(Lookup(a, AtEnabled)))
  }

  /** `filter` and `auto` are what the definition's FilterFunc and AutoConfigFunc return, None
      where the definition has no such function. */
  predicate ShouldProcess(a: Annotations, filter: Option<bool>, auto: Option<bool>) {
    if IsOptOut(a) then false
    else if filter == Some(false) then false
    else if auto.None? || auto.value then true
    else HasRequiredAnnotations(a)
  }
}
