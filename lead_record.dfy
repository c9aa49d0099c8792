/**
 * A lead document as the core sees it: the dictionary `lead.as_dict()`,
 * an ordered mapping from field name to Python value.
 */
module LeadRecord {

  /**
   * A field value. `Other` stands for any value that is neither None nor a
   * string (a number, a date, a child table), carried as the text Python's
   * `str()` gives it and its truthiness.
   */
  datatype Value = Null | Str(s: string) | Other(text: string, truthy: bool)

  datatype Field = Field(key: string, value: Value)

  /** The fields of a lead in dictionary order. */
  type Lead = seq<Field>

  /** A Python dictionary never holds the same key twice. */
  predicate DistinctKeys(lead: Lead)
  {
    forall i, j :: 0 <= i < j < |lead| ==> lead[i].key != lead[j].key
  }

  /** Python's `d.get(key, default)`. */
  function Get(lead: Lead, key: string, default: Value): (v: Value)
    ensures v == default || Field(key, v) in lead
  {
    if lead == [] then default
    else if lead[0].key == key then lead[0].value
    else Get(lead[1..], key, default)
  }

  /** Python's truth value of a field value. */
  predicate Truthy(v: Value)
  {
    match v
    case Null => false
    case Str(s) => s != ""
    case Other(_, t) => t
  }

  /** The text an f-string writes for a value (`str(v)`). */
  function Show(v: Value): string
  {
    match v
    case Null => "None"
    case Str(s) => s
    case Other(t, _) => t
  }
}
