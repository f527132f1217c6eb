/** What an ADIF record says under a name. */
module RecordFields {
  import opened Text
  import opened Adif

  /** The text of a field, nothing when the record has none of that name. */
  ghost predicate Says(r: Record, name: string, text: string) {
    if name in r then text == r[name] else text == ""
  }

  ghost predicate SaysTrimmed(r: Record, name: string, text: string) { exists raw :: Says(r, name, raw) && text == TrimSpace(raw) }

  ghost predicate SaysUpper(r: Record, name: string, text: string) { exists raw :: Says(r, name, raw) && text == ToUpper(TrimSpace(raw)) }

  /** The first of two fields that is not blank. */
  ghost predicate SaysEither(r: Record, first: string, second: string, text: string) {
    exists a, b :: Says(r, first, a) && Says(r, second, b)
      && text == if TrimSpace(a) != "" then a else if TrimSpace(b) != "" then b else ""
  }

  /** The text itself: what a lookup of the name gives, nothing when it is missing. */
  ghost predicate Holds(r: Record, name: string, raw: string) { raw == if name in r then r[name] else "" }

  lemma SaysTexts(r: Record, name: string, raw: string)
    requires Holds(r, name, raw)
    ensures forall text :: Says(r, name, text) <==> text == raw
    ensures forall text :: SaysTrimmed(r, name, text) <==> text == TrimSpace(raw)
    ensures forall text :: SaysUpper(r, name, text) <==> text == ToUpper(TrimSpace(raw))
  {
    hide TrimSpace, ToUpper;
    assert Says(r, name, raw);
  }

  lemma SaysFirst(r: Record, first: string, second: string, a: string, b: string)
    requires Holds(r, first, a) && Holds(r, second, b)
    ensures forall text :: SaysEither(r, first, second, text) <==> text == FirstNonEmpty(a, b)
  {
    hide TrimSpace;
    assert Says(r, first, a) && Says(r, second, b);
  }
}
