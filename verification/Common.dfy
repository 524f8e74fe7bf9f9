/** Vocabulary shared by every module: optional values, ids, instants and a few text helpers. */
module Common {

  datatype Option<+T> = None | Some(value: T)

  /** Identifiers are generated strings. */
  type Id = string

  /** An instant. Naive datetimes are read as UTC by the source, so one integer line suffices. */
  type Time = int

  /** Python truthiness of an optional string: present and not empty. */
  predicate Present(value: Option<string>) {
    value.Some? && value.value != ""
  }

  function Min(a: int, b: int): int {
    if a <= b then a else b
  }

  function Max(a: int, b: int): int {
    if a >= b then a else b
  }

  /** The slice `text[:limit]`. */
  function Clip(text: string, limit: nat): string {
    if |text| <= limit then text else text[..limit]
  }

  /** Entries of a sequence are pairwise different. */
  ghost predicate Distinct<T>(items: seq<T>) {
    forall i, j :: 0 <= i < j < |items| ==> items[i] != items[j]
  }

  /** The entries of a sequence, as a set. */
  function Elements<T(==)>(items: seq<T>): set<T> {
    set item | item in items
  }
}
